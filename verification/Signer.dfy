/** packages/delegation_fabric_adapters/kms/signer.py: raw ES256 signatures and compact JWS grants. */
module Signer {
  import opened Text
  import opened Json
  import opened Base64
  import opened Records

  // ---- raw R || S signatures (section 3.4 of RFC 7518) ----

  const FIELD_BYTES := 32

  function Power256(n: nat): (p: nat)
    ensures p > 0
  {
    if n == 0 then 1 else 256 * Power256(n - 1)
  }

  /** `x.to_bytes(n, "big")` for a number that fits. */
  function BigEndian(x: nat, n: nat): (bytes: seq<Byte>)
    ensures |bytes| == n
  {
    if n == 0 then [] else BigEndian(x / 256, n - 1) + [x % 256]
  }

  /** `int.from_bytes(bytes, "big")` */
  function FromBytes(bytes: seq<Byte>): nat {
    if bytes == [] then 0 else 256 * FromBytes(bytes[..|bytes| - 1]) + bytes[|bytes| - 1]
  }

  lemma {:induction false} FromBigEndian(x: nat, n: nat)
    requires x < Power256(n)
    ensures FromBytes(BigEndian(x, n)) == x
  {
    if n > 0 {
      FromBigEndian(x / 256, n - 1);
      assert BigEndian(x, n)[..n - 1] == BigEndian(x / 256, n - 1);
    }
  }

  lemma {:induction false} BigEndianFrom(bytes: seq<Byte>)
    ensures FromBytes(bytes) < Power256(|bytes|)
    ensures BigEndian(FromBytes(bytes), |bytes|) == bytes
  {
    if bytes != [] {
      BigEndianFrom(bytes[..|bytes| - 1]);
      assert bytes[..|bytes| - 1] + [bytes[|bytes| - 1]] == bytes;
    }
  }

  datatype Signature = Signature(r: nat, s: nat)

  /** `der_to_raw_rs` after DER decoding; a number that does not fit raises. */
  function PackRaw(sig: Signature): Option<seq<Byte>> {
    if sig.r < Power256(FIELD_BYTES) && sig.s < Power256(FIELD_BYTES)
    then Some(BigEndian(sig.r, FIELD_BYTES) + BigEndian(sig.s, FIELD_BYTES)) else None
  }

  /** `raw_rs_to_der` before DER encoding. */
  function UnpackRaw(raw: seq<Byte>): Option<Signature> {
    if |raw| != 2 * FIELD_BYTES then None
    else Some(Signature(FromBytes(raw[..FIELD_BYTES]), FromBytes(raw[FIELD_BYTES..])))
  }

  lemma DivideTwice(x: nat, p: nat)
    requires p > 0
    ensures x / 256 / p == x / (256 * p)
  {
    var q, r := x / (256 * p), x % (256 * p);
    assert x == q * (256 * p) + r;
    assert x / 256 == q * p + r / 256 by { assert x == 256 * (q * p) + r; }
    assert 0 <= r / 256 < p;
    Quotient(x / 256, p, q, r / 256);
  }

  lemma Quotient(x: nat, p: nat, q: nat, r: nat)
    requires p > 0 && x == q * p + r && r < p
    ensures x / p == q
  {
    var k := x / p;
    assert k * p <= x < k * p + p;
    Multiples(k + 1, q, p);
    Multiples(q + 1, k, p);
  }

  lemma Multiples(a: nat, b: nat, p: nat)
    ensures a <= b ==> a * p <= b * p
    ensures (a + 1) * p == a * p + p
  {}

  /** The most significant byte comes first. */
  lemma {:induction false} BigEndianAt(x: nat, n: nat, i: nat)
    requires i < n
    ensures BigEndian(x, n)[i] == x / Power256(n - 1 - i) % 256
  {
    if i < n - 1 {
      BigEndianAt(x / 256, n - 1, i);
      DivideTwice(x, Power256(n - 2 - i));
    }
  }

  /** The packed signature is R and then S, thirty-two bytes each, most significant byte first; what needs more does not pack. */
  lemma PackedExactly(sig: Signature, i: nat)
    ensures PackRaw(sig).Some? <==> sig.r < Power256(32) && sig.s < Power256(32)
    ensures PackRaw(sig).Some? ==> |PackRaw(sig).value| == 64
    ensures PackRaw(sig).Some? && i < 32 ==> PackRaw(sig).value[i] == sig.r / Power256(31 - i) % 256
    ensures PackRaw(sig).Some? && 32 <= i < 64 ==> PackRaw(sig).value[i] == sig.s / Power256(63 - i) % 256
  {
    if i < 32 { BigEndianAt(sig.r, 32, i); } else if i < 64 { BigEndianAt(sig.s, 32, i - 32); }
  }

  /** Unpacking inverts packing for every pair below 2^256. */
  lemma RawRoundTrip(sig: Signature)
    requires sig.r < Power256(FIELD_BYTES) && sig.s < Power256(FIELD_BYTES)
    ensures PackRaw(sig).Some? && UnpackRaw(PackRaw(sig).value) == Some(sig)
  {
    FromBigEndian(sig.r, FIELD_BYTES);
    FromBigEndian(sig.s, FIELD_BYTES);
    var r, s := BigEndian(sig.r, FIELD_BYTES), BigEndian(sig.s, FIELD_BYTES);
    assert (r + s)[..FIELD_BYTES] == r && (r + s)[FIELD_BYTES..] == s;
  }

  /** And packing inverts unpacking for every 64 bytes. */
  lemma RawRoundTripBack(raw: seq<Byte>)
    requires UnpackRaw(raw).Some?
    ensures PackRaw(UnpackRaw(raw).value) == Some(raw)
  {
    BigEndianFrom(raw[..FIELD_BYTES]);
    BigEndianFrom(raw[FIELD_BYTES..]);
    assert raw[..FIELD_BYTES] + raw[FIELD_BYTES..] == raw;
  }

  lemma Power256Is()
    ensures Power256(32) == 0x1_0000000000000000_0000000000000000_0000000000000000_0000000000000000
  {
    assert Power256(8) == 0x1_0000000000000000;
    assert Power256(16) == 0x1_0000000000000000_0000000000000000;
    assert Power256(24) == 0x1_0000000000000000_0000000000000000_0000000000000000;
  }

  // ---- compact JWS (section 7.1 of RFC 7515) ----

  const ALG := "ES256"
  const TYP := "DFG+JWT"

  /** JSON text, claim validation and elliptic-curve operations are library code. */
  datatype Library = Library(
    dumps: Json -> seq<Byte>, loads: seq<Byte> -> Option<Json>,
    toJson: Claims -> Json, validate: Json -> Option<Claims>,
    sign: (string, string) -> Signature,              // key, message
    verify: (string, string, Signature) -> bool)      // PEM text, message
  {
    /** Headers and claims survive JSON. */
    ghost predicate Faithful() {
      && (forall kid :: loads(dumps(Header(kid))) == Some(Header(kid)))
      && (forall c :: loads(dumps(toJson(c))) == Some(toJson(c)))
      && (forall c :: validate(toJson(c)) == Some(c))
    }

    /** Signatures fit the field and verify under their own key. */
    ghost predicate Signs(pemOf: string -> string) {
      && (forall k, m :: sign(k, m).r < Power256(FIELD_BYTES) && sign(k, m).s < Power256(FIELD_BYTES))
      && (forall k, m :: verify(pemOf(k), m, sign(k, m)))
    }
  }

  function Header(kid: string): Json { Dict(map["alg" := Str(ALG), "typ" := Str(TYP), "kid" := Str(kid)]) }

  function SigningInput(lib: Library, kid: string, c: Claims): string {
    Encode(lib.dumps(Header(kid))) + "." + Encode(lib.dumps(lib.toJson(c)))
  }

  /** `sign_grant`; None only if a signature does not fit. */
  function SignGrant(lib: Library, key: string, kid: string, c: Claims): Option<string> {
    match PackRaw(lib.sign(key, SigningInput(lib, kid, c)))
    case None => None
    case Some(raw) => Some(SigningInput(lib, kid, c) + "." + Encode(raw))
  }

  /** `Untrusted` is GrantSignatureError, `Raised` any other exception. */
  datatype Parsed = Accepted(header: Json, claims: Claims) | Untrusted | Raised

  function AsBytes(s: string): Option<seq<Byte>> {
    match Decode(s)
    case None => None
    case Some(ds) => if forall i :: 0 <= i < |ds| ==> 0 <= ds[i] < 256 then Some(seq(|ds|, i requires 0 <= i < |ds| => ds[i])) else None
  }

  function Field(header: Object, k: string): Json { if k in header then header[k] else Null }

  /** Everything before the key lookup: the header's key id, or why there is none. */
  datatype HeaderCheck = Kid(kid: string) | BadHeader | HeaderRaises

  function CheckHeader(header: Json): HeaderCheck {
    if !header.Dict? then HeaderRaises
    else
      var h := header.entries;
      if Field(h, "alg") != Str(ALG) then BadHeader
      else if (if "typ" in h then h["typ"] else Str("JWT")) != Str(TYP) then BadHeader
      else if Truthy(Field(h, "crit")) then BadHeader
      else if !Truthy(Field(h, "kid")) then BadHeader
      else if Field(h, "kid").Str? then Kid(Field(h, "kid").s)
      else if Scalar(Field(h, "kid")) then BadHeader else HeaderRaises
  }

  datatype Segments = Segments(header: Json, payload: Json, signature: seq<Byte>, input: string)

  /** Split the token into its three segments and decode them. */
  function ReadSegments(lib: Library, token: string): Option<Segments> {
    var parts := SplitDots(Strip(token));
    if |parts| != 3 then None
    else
      match (AsBytes(parts[0]), AsBytes(parts[1]), AsBytes(parts[2]))
      case (Some(h), Some(p), Some(s)) =>
        (match (lib.loads(h), lib.loads(p))
         case (Some(header), Some(payload)) => Some(Segments(header, payload, s, parts[0] + "." + parts[1]))
         case _ => None)
      case _ => None
  }

  function Verify(lib: Library, pem: string, seg: Segments): Parsed {
    match UnpackRaw(seg.signature)
    case None => Untrusted
    case Some(sig) =>
      if !lib.verify(pem, seg.input, sig) then Untrusted
      else match lib.validate(seg.payload)
        case None => Raised
        case Some(c) => Accepted(seg.header, c)
  }

  /** `parse_and_verify` with the keys known once the key id has been resolved. */
  function Parse(lib: Library, keys: map<string, string>, token: string): Parsed {
    match ReadSegments(lib, token)
    case None => Untrusted
    case Some(seg) =>
      match CheckHeader(seg.header)
      case HeaderRaises => Raised
      case BadHeader => Untrusted
      case Kid(kid) => if kid in keys then Verify(lib, keys[kid], seg) else Untrusted
  }

  // ---- which tokens are accepted ----

  /** The header is for this algorithm and type, asks for nothing critical, and names a key. */
  predicate GoodHeader(h: Json, kid: string) { GoodKind(h) && "kid" in h.entries && h.entries["kid"] == Str(kid) && kid != "" }

  predicate GoodKind(h: Json) {
    && h.Dict? && "alg" in h.entries && h.entries["alg"] == Str("ES256") && "typ" in h.entries && h.entries["typ"] == Str("DFG+JWT")
    && ("crit" in h.entries ==> Empty(h.entries["crit"]))
  }

  /** Only a header that is no object, or whose key is a list or an object, raises; any other is refused or names a key. */
  lemma HeaderRaisesExactly(h: Json)
    ensures CheckHeader(h).HeaderRaises?
      <==> !h.Dict? || (GoodKind(h) && "kid" in h.entries && !Empty(h.entries["kid"]) && (h.entries["kid"].List? || h.entries["kid"].Dict?))
  {
    assert "JWT"[0] != "DFG+JWT"[0];
    if h.Dict? {
      TruthyExactly(Field(h.entries, "crit"));
      TruthyExactly(Field(h.entries, "kid"));
    }
  }

  lemma HeaderExactly(h: Json, kid: string)
    ensures CheckHeader(h) == Kid(kid) <==> GoodHeader(h, kid)
  {
    assert "JWT"[0] != "DFG+JWT"[0];
    if h.Dict? {
      TruthyExactly(Field(h.entries, "crit"));
      TruthyExactly(Field(h.entries, "kid"));
    }
  }

  /** Three segments that decode; a header that names a trusted key, under which the sixty-four bytes are a signature of
      the first two; and a payload of valid claims. */
  ghost predicate Accepts(lib: Library, keys: map<string, string>, token: string, header: Json, c: Claims, kid: string, payload: Json,
                          raw: seq<Byte>) {
    var parts := SplitDots(Strip(token));
    && |parts| == 3 && AsBytes(parts[0]).Some? && AsBytes(parts[1]).Some? && AsBytes(parts[2]) == Some(raw)
    && lib.loads(AsBytes(parts[0]).value) == Some(header) && lib.loads(AsBytes(parts[1]).value) == Some(payload)
    && GoodHeader(header, kid) && kid in keys && |raw| == 64
    && lib.verify(keys[kid], parts[0] + "." + parts[1], Signature(FromBytes(raw[..32]), FromBytes(raw[32..])))
    && lib.validate(payload) == Some(c)
  }

  lemma {:induction false} AcceptedExactly(lib: Library, keys: map<string, string>, token: string, header: Json, c: Claims)
    ensures Parse(lib, keys, token) == Accepted(header, c)
      <==> exists kid, payload, raw :: Accepts(lib, keys, token, header, c, kid, payload, raw)
  {
    forall h, kid ensures CheckHeader(h) == Kid(kid) <==> GoodHeader(h, kid) { HeaderExactly(h, kid); }
    if Parse(lib, keys, token) == Accepted(header, c) {
      var seg := ReadSegments(lib, token).value;
      assert Accepts(lib, keys, token, header, c, CheckHeader(header).kid, seg.payload, seg.signature);
    }
    if kid, payload, raw :| Accepts(lib, keys, token, header, c, kid, payload, raw) {
      var parts := SplitDots(Strip(token));
      assert ReadSegments(lib, token) == Some(Segments(header, payload, raw, parts[0] + "." + parts[1]));
      assert CheckHeader(header) == Kid(kid);
    }
  }

  /** A genuine signature on claims that are not valid raises, and so does a header that cannot be examined; whatever else
      is not accepted is untrusted. */
  lemma {:induction false} RaisedExactly(lib: Library, keys: map<string, string>, token: string)
    ensures Parse(lib, keys, token) == Raised
      <==> ReadSegments(lib, token).Some? && var seg := ReadSegments(lib, token).value;
           CheckHeader(seg.header).HeaderRaises?
           || (exists kid :: GoodHeader(seg.header, kid) && kid in keys && |seg.signature| == 64 && lib.validate(seg.payload).None?
                 && lib.verify(keys[kid], seg.input, Signature(FromBytes(seg.signature[..32]), FromBytes(seg.signature[32..]))))
  {
    if ReadSegments(lib, token).Some? {
      var h := ReadSegments(lib, token).value.header;
      forall kid ensures CheckHeader(h) == Kid(kid) <==> GoodHeader(h, kid) { HeaderExactly(h, kid); }
      if CheckHeader(h).Kid? { assert GoodHeader(h, CheckHeader(h).kid); }
    }
  }

  // ---- a signed token comes back ----

  lemma HeaderPasses(kid: string)
    requires kid != ""
    ensures CheckHeader(Header(kid)) == Kid(kid)
  {
    assert |"alg"| == |"typ"| == |"kid"| == 3 && |"crit"| == 4 && "alg"[0] != "typ"[0] && "kid"[0] != "typ"[0] && "kid"[0] != "alg"[0];
  }

  lemma PlainIsDotFree(s: string)
    requires Plain(s)
    ensures DotFree(s)
  {}

  lemma ThreeSegments(a: string, b: string, c: string)
    requires Plain(a) && Plain(b) && Plain(c)
    ensures var token := a + "." + b + "." + c; Strip(token) == token && SplitDots(token) == [a, b, c]
  {
    PlainIsDotFree(a);
    PlainIsDotFree(b);
    PlainIsDotFree(c);
    assert a + "." + b + "." + c == a + "." + (b + "." + c);
    SplitAtDot(a, b + "." + c);
    SplitAtDot(b, c);
    SplitOfDotFree(c);
    assert [a] + ([b] + [c]) == [a, b, c];
    var token := a + "." + b + "." + c;
    assert Unpadded(token) by {
      assert token[0] == if a == "" then '.' else a[0];
      assert token[|token| - 1] == if c == "" then '.' else c[|c| - 1];
    }
  }

  lemma BytesBack(d: seq<Byte>)
    ensures AsBytes(Encode(d)) == Some(d)
  {
    RoundTrip(d);
    var ds: seq<int> := d;
    assert forall i :: 0 <= i < |ds| ==> 0 <= ds[i] < 256;
    assert AsBytes(Encode(d)).value == d;
  }

  lemma ReadOfParts(lib: Library, a: string, b: string, c: string, h: seq<Byte>, p: seq<Byte>, raw: seq<Byte>,
                    header: Json, payload: Json)
    requires Plain(a) && Plain(b) && Plain(c)
    requires AsBytes(a) == Some(h) && AsBytes(b) == Some(p) && AsBytes(c) == Some(raw)
    requires lib.loads(h) == Some(header) && lib.loads(p) == Some(payload)
    ensures ReadSegments(lib, a + "." + b + "." + c) == Some(Segments(header, payload, raw, a + "." + b))
  {
    ThreeSegments(a, b, c);
  }

  /** A signed token is exactly three segments, which decode to what was encoded. */
  lemma SignedSegments(lib: Library, pemOf: string -> string, key: string, kid: string, c: Claims)
    requires lib.Faithful() && lib.Signs(pemOf)
    ensures SignGrant(lib, key, kid, c).Some?
    ensures var token, m := SignGrant(lib, key, kid, c).value, SigningInput(lib, kid, c);
      ReadSegments(lib, token) == Some(Segments(Header(kid), lib.toJson(c), PackRaw(lib.sign(key, m)).value, m))
  {
    var m := SigningInput(lib, kid, c);
    var raw := PackRaw(lib.sign(key, m)).value;
    var h, p := lib.dumps(Header(kid)), lib.dumps(lib.toJson(c));
    EncodeIsSymbols(h);
    EncodeIsSymbols(p);
    EncodeIsSymbols(raw);
    BytesBack(h);
    BytesBack(p);
    BytesBack(raw);
    ReadOfParts(lib, Encode(h), Encode(p), Encode(raw), h, p, raw, Header(kid), lib.toJson(c));
  }

  /** A signed grant parses back to the grant that was signed, whenever the key is known. */
  lemma SignedParses(lib: Library, pemOf: string -> string, key: string, kid: string, keys: map<string, string>,
                     c: Claims)
    requires lib.Faithful() && lib.Signs(pemOf) && kid != "" && kid in keys && keys[kid] == pemOf(key)
    ensures SignGrant(lib, key, kid, c).Some?
    ensures Parse(lib, keys, SignGrant(lib, key, kid, c).value) == Accepted(Header(kid), c)
  {
    var m := SigningInput(lib, kid, c);
    SignedSegments(lib, pemOf, key, kid, c);
    HeaderPasses(kid);
    RawRoundTrip(lib.sign(key, m));
  }

  // ---- an accepted token was signed ----

  /** The token's signature is not a forgery: if it verifies under a trusted key, the control plane signed that message. */
  ghost predicate Unforged(lib: Library, keys: map<string, string>, signed: set<(string, Claims)>, token: string) {
    match ReadSegments(lib, token)
    case None => true
    case Some(seg) =>
      match UnpackRaw(seg.signature)
      case None => true
      case Some(sig) => forall kid :: kid in keys && lib.verify(keys[kid], seg.input, sig) ==>
        exists s :: s in signed && seg.input == SigningInput(lib, s.0, s.1)
  }

  /** An accepted token that is no forgery carries the claims of a grant that the control plane signed, unchanged. */
  lemma {:induction false} AcceptedWasSigned(lib: Library, keys: map<string, string>, signed: set<(string, Claims)>, token: string)
    requires lib.Faithful() && Unforged(lib, keys, signed, token) && Parse(lib, keys, token).Accepted?
    ensures exists s :: s in signed && s.1 == Parse(lib, keys, token).claims && Parse(lib, keys, token).header == Header(s.0)
  {
    var parts := SplitDots(Strip(token));
    var seg := ReadSegments(lib, token).value;
    var sig := UnpackRaw(seg.signature).value;
    var s :| s in signed && seg.input == SigningInput(lib, s.0, s.1);
    var h, p := lib.dumps(Header(s.0)), lib.dumps(lib.toJson(s.1));
    EncodeIsSymbols(h);
    EncodeIsSymbols(p);
    SameHalves(parts[0], parts[1], Encode(h), Encode(p));
    BytesBack(h);
    BytesBack(p);
  }

  lemma SameHalves(a: string, b: string, c: string, d: string)
    requires DotFree(a) && DotFree(b) && Plain(c) && Plain(d) && a + "." + b == c + "." + d
    ensures a == c && b == d
  {
    PlainIsDotFree(c);
    PlainIsDotFree(d);
    SplitAtDot(a, b);
    SplitAtDot(c, d);
    SplitOfDotFree(b);
    SplitOfDotFree(d);
    assert ([a] + [b])[0] == a && ([a] + [b])[1] == b && ([c] + [d])[0] == c && ([c] + [d])[1] == d;
  }

  // ---- the verifier ----

  class JWSGrantVerifier {
    const lib: Library
    const resolver: Option<string -> Option<string>>
    var publicKeys: map<string, string>

    constructor (lib: Library, keys: map<string, string>, resolver: Option<string -> Option<string>>)
      ensures this.lib == lib && this.resolver == resolver && publicKeys == keys
    {
      this.lib, this.resolver, publicKeys := lib, resolver, keys;
    }

    method RegisterPublicKey(kid: string, pem: string)
      modifies this
      ensures publicKeys == old(publicKeys)[kid := pem]
    {
      publicKeys := publicKeys[kid := pem];
    }

    /** An unknown key id is resolved and trusted from then on. */
    ghost function KeysFor(token: string): map<string, string>
      reads this
    {
      match ReadSegments(lib, token)
      case None => publicKeys
      case Some(seg) =>
        match CheckHeader(seg.header)
        case Kid(kid) =>
          if kid !in publicKeys && resolver.Some? && resolver.value(kid).Some? then publicKeys[kid := resolver.value(kid).value]
          else publicKeys
        case _ => publicKeys
    }

    method ParseAndVerify(token: string) returns (r: Parsed)
      modifies this
      ensures publicKeys == old(KeysFor(token))
      ensures r == Parse(lib, publicKeys, token)
      ensures forall kid :: ReadSegments(lib, token).Some? && GoodHeader(ReadSegments(lib, token).value.header, kid) ==>
        publicKeys == if kid !in old(publicKeys) && resolver.Some? && resolver.value(kid).Some?
                      then old(publicKeys)[kid := resolver.value(kid).value] else old(publicKeys)
      ensures (forall kid :: ReadSegments(lib, token).Some? ==> !GoodHeader(ReadSegments(lib, token).value.header, kid)) ==>
        publicKeys == old(publicKeys)
      ensures r.Accepted? ==> forall k :: k in old(publicKeys) ==> k in publicKeys && publicKeys[k] == old(publicKeys)[k]
    {
      var segments := ReadSegments(lib, token);
      if segments.None? { return Untrusted; }
      forall kid { HeaderExactly(segments.value.header, kid); }
      var check := CheckHeader(segments.value.header);
      match check {
        case HeaderRaises => return Raised;
        case BadHeader => return Untrusted;
        case Kid(kid) =>
          if kid !in publicKeys && resolver.Some? {
            var pem := resolver.value(kid);
            if pem.None? { return Untrusted; }
            RegisterPublicKey(kid, pem.value);
          }
          if kid !in publicKeys { return Untrusted; }
          r := Verify(lib, publicKeys[kid], segments.value);
      }
    }
  }
}
