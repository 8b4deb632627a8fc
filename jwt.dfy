/**
  internal/lib/jwt/JWT.go: the student token. GenerateJWT signs the claims
  `barcode` and `exp`; EncodeJWT parses a token with golang-jwt and checks
  its signing method, its expiry and the type of its barcode claim.

  The JWT library itself is abstract: a `Library` value supplies signing,
  decoding of the header and claims, and signature verification. Parse
  keeps the order of golang-jwt's checks (malformed token, key function,
  signature).
 */
module Jwt {
  import opened Errors
  import Text

  /** One day, in seconds. */
  const Day := 86400

  /** A value of a jwt.MapClaims entry: numbers (float64 in JSON) are modelled as integers. */
  datatype ClaimValue = Num(n: int) | Str(s: string) | Other

  type Claims = map<string, ClaimValue>

  datatype SigningMethod = HS256 | HS384 | HS512 | RS256 | ES256 | NoneAlg
  {
    /** The methods whose Go type is *jwt.SigningMethodHMAC. */
    predicate IsHMAC()
    {
      this == HS256 || this == HS384 || this == HS512
    }
  }

  /** What a token's header and payload decode to. */
  datatype Decoded = Decoded(alg: SigningMethod, claims: Claims)

  /**
    The uninterpreted primitives of golang-jwt: `sign(alg, claims, key)`
    is the compact serialisation, `decode` splits and decodes a token, and
    `verify(alg, token, key)` checks the signature.
   */
  datatype Library = Library(
    sign: (SigningMethod, Claims, string) -> string,
    decode: string -> Option<Decoded>,
    verify: (SigningMethod, string, string) -> bool)

  /** `token` is what signing `claims` with `alg` and `key` produced, as far as the library can tell. */
  predicate RoundTrips(lib: Library, alg: SigningMethod, claims: Claims, key: string)
  {
    var token := lib.sign(alg, claims, key);
    lib.decode(token) == Some(Decoded(alg, claims)) && lib.verify(alg, token, key)
  }

  const Malformed := "token is malformed"
  const Unverifiable := "token is unverifiable: error while executing keyfunc"
  const SignatureInvalid := "token signature is invalid"

  /**
    jwt.Parse: decode, ask the key function for the key, check the
    signature. The claims come back only when all three succeed.
   */
  function Parse(lib: Library, token: string, keyFunc: SigningMethod -> Result<string>): (r: Result<Claims>)
    ensures lib.decode(token).None? ==> r == Err(Plain(Malformed))
    ensures r.Ok? <==>
      lib.decode(token).Some? &&
      keyFunc(lib.decode(token).value.alg).Ok? &&
      lib.verify(lib.decode(token).value.alg, token, keyFunc(lib.decode(token).value.alg).value)
    ensures r.Ok? ==> r.value == lib.decode(token).value.claims
    ensures lib.decode(token).Some? && keyFunc(lib.decode(token).value.alg).Err? ==>
      r == Err(Wrapped(Unverifiable, keyFunc(lib.decode(token).value.alg).error))
  {
    match lib.decode(token)
    case None => Err(Plain(Malformed))
    case Some(d) =>
      match keyFunc(d.alg)
      case Err(e) => Err(Wrapped(Unverifiable, e))
      case Ok(key) =>
        if lib.verify(d.alg, token, key) then Ok(d.claims) else Err(Plain(SignatureInvalid))
  }

  /**
    jwt.Parse with a key function that hands out `key` whatever the token's
    method, as the guards that parse tokens themselves do.
   */
  function ParseWithKey(lib: Library, token: string, key: string): (r: Result<Claims>)
    ensures r.Ok? <==>
      lib.decode(token).Some? && lib.verify(lib.decode(token).value.alg, token, key)
    ensures r.Ok? ==> r.value == lib.decode(token).value.claims
  {
    Parse(lib, token, m => Ok(key))
  }

  /** The key function of EncodeJWT: the secret for HMAC methods, an error for any other. */
  function HmacKey(jwtSecret: string, m: SigningMethod): (r: Result<string>)
    ensures r.Ok? <==> m.IsHMAC()
    ensures r.Ok? ==> r.value == jwtSecret
  {
    if m.IsHMAC() then Ok(jwtSecret) else Err(Plain("unexpected signing method"))
  }

  /** The claims GenerateJWT signs: exactly `barcode` and an expiry one day after `now`. */
  function StudentClaims(barcode: int, now: int): (c: Claims)
    ensures c.Keys == {"barcode", "exp"}
    ensures c["barcode"] == Num(barcode) && c["exp"] == Num(now + Day)
  {
    map["barcode" := Num(barcode), "exp" := Num(now + Day)]
  }

  /** GenerateJWT: the student's claims signed with HS256 and the secret. */
  function GenerateJWT(lib: Library, jwtSecret: string, barcode: int, now: int): string
  {
    lib.sign(HS256, StudentClaims(barcode, now), jwtSecret)
  }

  /** The token decodes to an HMAC method whose signature checks against the secret. */
  predicate SignedWithSecret(lib: Library, jwtSecret: string, token: string)
  {
    lib.decode(token).Some? && lib.decode(token).value.alg.IsHMAC() &&
    lib.verify(lib.decode(token).value.alg, token, jwtSecret)
  }

  predicate ExpValid(claims: Claims, now: int)
  {
    "exp" in claims && claims["exp"].Num? && claims["exp"].n >= now
  }

  /** The barcode claim parses: a number, or a string strconv.Atoi accepts. */
  predicate BarcodeValid(claims: Claims)
  {
    "barcode" in claims &&
    (claims["barcode"].Num? || (claims["barcode"].Str? && Text.Atoi(claims["barcode"].s).Some?))
  }

  /** EncodeJWT: the barcode of a verified, unexpired token whose barcode claim parses. */
  function EncodeJWT(lib: Library, jwtSecret: string, tokenString: string, now: int): (r: Result<int>)
    ensures r.Ok? <==>
      SignedWithSecret(lib, jwtSecret, tokenString) &&
      ExpValid(lib.decode(tokenString).value.claims, now) &&
      BarcodeValid(lib.decode(tokenString).value.claims)
    ensures r.Ok? ==>
      var b := lib.decode(tokenString).value.claims["barcode"];
      (b.Num? && r.value == Text.FloatToInt(b.n)) || (b.Str? && Text.Atoi(b.s) == Some(r.value))
    ensures lib.decode(tokenString).None? ==> r == Err(Plain(Malformed))
    ensures lib.decode(tokenString).Some? && !lib.decode(tokenString).value.alg.IsHMAC() ==>
      r.Err? && Is(r.error, Plain("unexpected signing method"))
    ensures lib.decode(tokenString).Some? && lib.decode(tokenString).value.alg.IsHMAC() &&
            !lib.verify(lib.decode(tokenString).value.alg, tokenString, jwtSecret) ==>
      r == Err(Plain(SignatureInvalid))
    ensures SignedWithSecret(lib, jwtSecret, tokenString) ==>
      var c := lib.decode(tokenString).value.claims;
      (!("exp" in c && c["exp"].Num?) ==> r == Err(Plain("invalid exp format"))) &&
      ("exp" in c && c["exp"].Num? && c["exp"].n < now ==> r == Err(Plain("token expired"))) &&
      (ExpValid(c, now) && "barcode" in c && c["barcode"].Str? && Text.Atoi(c["barcode"].s).None? ==>
         r == Err(Plain("invalid barcode string"))) &&
      (ExpValid(c, now) && ("barcode" !in c || c["barcode"].Other?) ==>
         r == Err(Plain("barcode not found or invalid type")))
  {
    match Parse(lib, tokenString, m => HmacKey(jwtSecret, m))
    case Err(e) => Err(e)
    case Ok(claims) =>
      if !("exp" in claims && claims["exp"].Num?) then Err(Plain("invalid exp format"))
      else if claims["exp"].n < now then Err(Plain("token expired"))
      else if "barcode" !in claims then Err(Plain("barcode not found or invalid type"))
      else
        match claims["barcode"]
        case Num(n) => Ok(Text.FloatToInt(n))
        case Str(s) =>
          (match Text.Atoi(s)
           case None => Err(Plain("invalid barcode string"))
           case Some(parsed) => Ok(parsed))
        case Other => Err(Plain("barcode not found or invalid type"))
  }

  /**
    Round trip: a token GenerateJWT issued at `issuedAt` gives back the
    barcode until its expiry, the expiry instant included.
   */
  lemma EncodeGenerated(lib: Library, jwtSecret: string, barcode: int, issuedAt: int, now: int)
    requires RoundTrips(lib, HS256, StudentClaims(barcode, issuedAt), jwtSecret)
    requires Text.InInt64(barcode)
    requires now <= issuedAt + Day
    ensures EncodeJWT(lib, jwtSecret, GenerateJWT(lib, jwtSecret, barcode, issuedAt), now) == Ok(barcode)
  {
  }

  /**
    A token GenerateJWT issued is HS256, carries exactly the student's claims,
    and is verified by the secret it was signed with.
   */
  lemma GeneratedTokenVerifies(lib: Library, jwtSecret: string, barcode: int, now: int)
    requires RoundTrips(lib, HS256, StudentClaims(barcode, now), jwtSecret)
    ensures var token := GenerateJWT(lib, jwtSecret, barcode, now);
      SignedWithSecret(lib, jwtSecret, token) &&
      lib.decode(token) == Some(Decoded(HS256, StudentClaims(barcode, now))) &&
      Parse(lib, token, m => HmacKey(jwtSecret, m)) == Ok(StudentClaims(barcode, now))
  {
  }

  /** After the expiry instant the same token is refused as expired. */
  lemma EncodeGeneratedExpired(lib: Library, jwtSecret: string, barcode: int, issuedAt: int, now: int)
    requires RoundTrips(lib, HS256, StudentClaims(barcode, issuedAt), jwtSecret)
    requires now > issuedAt + Day
    ensures EncodeJWT(lib, jwtSecret, GenerateJWT(lib, jwtSecret, barcode, issuedAt), now) == Err(Plain("token expired"))
  {
  }

  /** Whatever its claims, a token signed with a method other than HMAC is never accepted. */
  lemma NonHmacRejected(lib: Library, jwtSecret: string, alg: SigningMethod, claims: Claims, now: int)
    requires !alg.IsHMAC()
    requires RoundTrips(lib, alg, claims, jwtSecret)
    ensures var r := EncodeJWT(lib, jwtSecret, lib.sign(alg, claims, jwtSecret), now);
      r.Err? && Is(r.error, Plain("unexpected signing method"))
  {
  }
}
