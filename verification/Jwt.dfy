/** Signed tokens: the compact serialization of section 7.1 of RFC 7515 with HMAC-SHA-256. */
module Jwt {
  import opened Text
  import opened Base64Url

  datatype Json =
    | Null
    | Bool(b: bool)
    | Number(n: int)
    | Str(s: string)
    | Array(items: seq<Json>)
    | Object(fields: map<string, Json>)

  /** The libraries behind the module: JSON, HMAC, and what the decoders do to malformed input. */
  datatype Libraries = Libraries(
    stringify: Json -> string,
    parse: string -> Option<Json>,
    hmac: (string, string) -> Bytes,
    lenientBase64: string -> Bytes,
    lenientUtf8: Bytes -> string)

  predicate RoundTrips(lib: Libraries, v: Json) {
    lib.parse(lib.stringify(v)) == Some(v)
  }

  const HEADER := Object(map["alg" := Str("HS256"), "typ" := Str("JWT")])

  function Field(fields: map<string, Json>, key: string): Json {
    if key in fields then fields[key] else Null
  }

  /** The payload with `iat` and `exp` filled in where they are null or missing. */
  function Body(payload: map<string, Json>, now: int, expiresInSeconds: int): map<string, Json> {
    payload
    ["iat" := if Field(payload, "iat") == Null then Number(now) else payload["iat"]]
    ["exp" := if Field(payload, "exp") == Null then Number(now + expiresInSeconds) else payload["exp"]]
  }

  /** Issue and expiry are filled in exactly where they are null or missing; nothing else is touched. */
  lemma BodyFields(payload: map<string, Json>, now: int, expiresInSeconds: int)
    ensures var body := Body(payload, now, expiresInSeconds);
            && (forall k :: k in body <==> k in payload || k == "iat" || k == "exp")
            && (forall k :: k in payload && k != "iat" && k != "exp" ==> body[k] == payload[k])
            && body["iat"] == (if "iat" in payload && payload["iat"] != Null then payload["iat"] else Number(now))
            && body["exp"] == (if "exp" in payload && payload["exp"] != Null then payload["exp"]
                               else Number(now + expiresInSeconds))
  {
  }

  function EncodeSegment(lib: Libraries, v: Json): string {
    UrlEncode(Utf8(lib.stringify(v)))
  }

  function SignSegment(lib: Libraries, input: string, secret: string): string {
    UrlEncode(lib.hmac(input, secret))
  }

  function SigningInput(lib: Libraries, body: map<string, Json>): string {
    EncodeSegment(lib, HEADER) + "." + EncodeSegment(lib, Object(body))
  }

  /** `createJwt` */
  function CreateJwt(lib: Libraries, payload: map<string, Json>, secret: string, expiresInSeconds: int, now: int): string {
    var input := SigningInput(lib, Body(payload, now, expiresInSeconds));
    input + "." + SignSegment(lib, input, secret)
  }

  // ---------------------------------------------------------------- verification

  /** String.prototype.split('.') */
  function Split(s: string): (parts: seq<string>)
    ensures parts != []
  {
    if s == "" then [""]
    else if s[0] == '.' then [""] + Split(s[1..])
    else
      var rest := Split(s[1..]);
      [[s[0]] + rest[0]] + rest[1..]
  }

  function DecodeSegment(lib: Libraries, segment: string): Option<Json> {
    var bytes := UrlDecode(segment, lib.lenientBase64);
    lib.parse(match FromUtf8(bytes) { case Some(text) => text case None => lib.lenientUtf8(bytes) })
  }

  predicate Truthy(v: Json) {
    match v
    case Null => false
    case Bool(b) => b
    case Number(n) => n != 0
    case Str(s) => s != ""
    case _ => true
  }

  predicate HeaderAccepted(v: Json) {
    v.Object? && Field(v.fields, "alg") == Str("HS256") && Field(v.fields, "typ") == Str("JWT")
  }

  predicate Expired(v: Json, now: int) {
    v.Object? && match Field(v.fields, "exp") { case Number(n) => n < now case _ => false }
  }

  /** `verifyJwt` */
  function VerifyJwt(lib: Libraries, token: string, secret: string, now: int): Option<Json> {
    var parts := Split(token);
    if |parts| != 3 then None
    else
      match (DecodeSegment(lib, parts[0]), DecodeSegment(lib, parts[1]))
      case (Some(header), Some(payload)) =>
        if !HeaderAccepted(header) || !Truthy(payload) then None
        else if parts[2] != SignSegment(lib, parts[0] + "." + parts[1], secret) then None
        else if Expired(payload, now) then None
        else Some(payload)
      case _ => None
  }

  lemma {:induction false} SplitPiece(a: string, rest: string)
    requires '.' !in a
    ensures Split(a + "." + rest) == [a] + Split(rest)
  {
    var s := a + "." + rest;
    if a == "" {
      assert s[1..] == rest;
    } else {
      assert s[1..] == a[1..] + "." + rest;
      assert a[0] in a;
      SplitPiece(a[1..], rest);
      assert [a[0]] + a[1..] == a;
    }
  }

  lemma {:induction false} SplitWhole(a: string)
    requires '.' !in a
    ensures Split(a) == [a]
  {
    if a != "" {
      assert a[0] in a;
      SplitWhole(a[1..]);
      assert [a[0]] + a[1..] == a;
    }
  }

  function Join(parts: seq<string>): string
    requires parts != []
  {
    if |parts| == 1 then parts[0] else parts[0] + "." + Join(parts[1..])
  }

  lemma {:induction false} JoinSplit(s: string)
    ensures Join(Split(s)) == s
  {
    if s != "" {
      JoinSplit(s[1..]);
      var rest := Split(s[1..]);
      if s[0] == '.' {
        assert ([""] + rest)[1..] == rest;
        assert "" + "." + s[1..] == s;
      } else {
        assert ([[s[0]] + rest[0]] + rest[1..])[1..] == rest[1..];
        assert [s[0]] + s[1..] == s;
      }
    }
  }

  lemma SegmentRoundTrip(lib: Libraries, v: Json)
    requires RoundTrips(lib, v)
    ensures DecodeSegment(lib, EncodeSegment(lib, v)) == Some(v)
  {
    hide UrlEncode, UrlDecode;
    UrlRoundTrip(Utf8(lib.stringify(v)), lib.lenientBase64);
    Utf8RoundTrip(lib.stringify(v));
  }

  /** The alphabet has no dot, so a created token splits into exactly its three parts. */
  lemma CreatedTokenSplits(lib: Libraries, payload: map<string, Json>, secret: string, expiresInSeconds: int, now: int)
    ensures var body := Body(payload, now, expiresInSeconds);
            Split(CreateJwt(lib, payload, secret, expiresInSeconds, now))
            == [EncodeSegment(lib, HEADER), EncodeSegment(lib, Object(body)), SignSegment(lib, SigningInput(lib, body), secret)]
  {
    hide UrlEncode, Utf8;
    var body := Body(payload, now, expiresInSeconds);
    var h, p := EncodeSegment(lib, HEADER), EncodeSegment(lib, Object(body));
    var s := SignSegment(lib, SigningInput(lib, body), secret);
    UrlEncodeHasNoDot(Utf8(lib.stringify(HEADER)));
    UrlEncodeHasNoDot(Utf8(lib.stringify(Object(body))));
    UrlEncodeHasNoDot(lib.hmac(SigningInput(lib, body), secret));
    assert CreateJwt(lib, payload, secret, expiresInSeconds, now) == h + "." + (p + "." + s);
    SplitPiece(h, p + "." + s);
    SplitPiece(p, s);
    SplitWhole(s);
  }

  /**
   * When a token is accepted, in both directions: three parts, a header that says HS256 and JWT, a payload that is not
   * null, false, 0 or empty, the signature of the first two parts, and an `exp` that, if it is a number, is not past.
   */
  lemma AcceptedExactly(lib: Libraries, token: string, secret: string, now: int)
    ensures VerifyJwt(lib, token, secret, now).Some? <==>
            var parts := Split(token);
            && |parts| == 3
            && var header, payload := DecodeSegment(lib, parts[0]), DecodeSegment(lib, parts[1]);
            && header.Some? && header.value.Object?
            && "alg" in header.value.fields && header.value.fields["alg"] == Str("HS256")
            && "typ" in header.value.fields && header.value.fields["typ"] == Str("JWT")
            && payload.Some? && payload.value !in [Null, Bool(false), Number(0), Str("")]
            && parts[2] == SignSegment(lib, parts[0] + "." + parts[1], secret)
            && !(payload.value.Object? && "exp" in payload.value.fields && payload.value.fields["exp"].Number?
                 && payload.value.fields["exp"].n < now)
    ensures VerifyJwt(lib, token, secret, now).Some? ==>
              VerifyJwt(lib, token, secret, now) == DecodeSegment(lib, Split(token)[1])
  {
    hide Split, DecodeSegment, SignSegment;
  }

  lemma HeaderIsAccepted()
    ensures HeaderAccepted(HEADER)
  {
  }

  /**
   * A created token gives back its body to whoever checks it with the same signature before it
   * expires, and nothing otherwise.
   */
  lemma CreatedTokenVerifies(lib: Libraries, payload: map<string, Json>, secret: string, expiresInSeconds: int, now: int,
                             secret': string, later: int)
    requires var body := Object(Body(payload, now, expiresInSeconds)); RoundTrips(lib, HEADER) && RoundTrips(lib, body)
    ensures var body := Body(payload, now, expiresInSeconds);
            var input := SigningInput(lib, body);
            VerifyJwt(lib, CreateJwt(lib, payload, secret, expiresInSeconds, now), secret', later)
            == if lib.hmac(input, secret) == lib.hmac(input, secret') && !Expired(Object(body), later)
               then Some(Object(body)) else None
  {
    hide UrlEncode, EncodeSegment, DecodeSegment, Expired, HeaderAccepted, CreateJwt, Split;
    var body := Body(payload, now, expiresInSeconds);
    var input := SigningInput(lib, body);
    CreatedTokenSplits(lib, payload, secret, expiresInSeconds, now);
    SegmentRoundTrip(lib, HEADER);
    SegmentRoundTrip(lib, Object(body));
    HeaderIsAccepted();
    if SignSegment(lib, input, secret) == SignSegment(lib, input, secret') {
      UrlEncodeInjective(lib.hmac(input, secret), lib.hmac(input, secret'));
    }
  }

  /** The round trip: same secret, not after `exp`. */
  lemma SignedTokenRoundTrip(lib: Libraries, payload: map<string, Json>, secret: string, expiresInSeconds: int, now: int,
                             later: int)
    requires var body := Object(Body(payload, now, expiresInSeconds)); RoundTrips(lib, HEADER) && RoundTrips(lib, body)
    requires var exp := Body(payload, now, expiresInSeconds)["exp"]; exp.Number? ==> later <= exp.n
    ensures VerifyJwt(lib, CreateJwt(lib, payload, secret, expiresInSeconds, now), secret, later)
            == Some(Object(Body(payload, now, expiresInSeconds)))
  {
    hide CreateJwt, VerifyJwt;
    CreatedTokenVerifies(lib, payload, secret, expiresInSeconds, now, secret, later);
  }

  /** Whatever is accepted is a signing input followed by its own signature, has not expired, and says what is returned. */
  lemma AcceptedTokensAreSigned(lib: Libraries, token: string, secret: string, now: int)
    requires VerifyJwt(lib, token, secret, now).Some?
    ensures exists h: string, p: string ::
              && token == (h + "." + p) + "." + SignSegment(lib, h + "." + p, secret)
              && DecodeSegment(lib, p) == VerifyJwt(lib, token, secret, now)
              && DecodeSegment(lib, h).Some? && HeaderAccepted(DecodeSegment(lib, h).value)
              && !Expired(DecodeSegment(lib, p).value, now)
  {
    hide SignSegment, DecodeSegment, HeaderAccepted, Expired, Split;
    var parts := Split(token);
    JoinSplit(token);
    assert parts == [parts[0], parts[1], parts[2]];
    assert Join(parts[1..]) == parts[1] + "." + parts[2] by {
      assert parts[1..][1..] == [parts[2]];
    }
    assert token == (parts[0] + "." + parts[1]) + "." + parts[2];
  }
}
