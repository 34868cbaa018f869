/**
 * The surface of the auth0 `java-jwt` and `jwks-rsa` libraries that the
 * verifier uses, as an oracle: what `JWT.decode`, `JwkProvider.get` and
 * `JWTVerifier.verify` return or throw for given inputs is a parameter of
 * the model, and everything the plugin does around those calls is modelled.
 */
module Jwt {
  import opened Kotlin
  import opened Exceptions
  import opened FetchConfig

  /** A header claim as `getHeaderClaim(name)` returns it. */
  datatype Claim = AbsentClaim | StringClaim(value: string) | NonStringClaim(json: string)

  /** `Claim.asString()`: the value of a string claim, null otherwise. */
  function AsString(c: Claim): (r: Option<string>)
    ensures r.Some? <==> c.StringClaim?
    ensures c.StringClaim? ==> r.value == c.value
  {
    if c.StringClaim? then Some(c.value) else None
  }

  /** What `JWT.decode` and `JWTVerifier.verify` return (`com.auth0.jwt.interfaces.DecodedJWT`). */
  datatype DecodedJWT = DecodedJWT(
    token: string,
    header: map<string, Claim>,
    audience: Option<seq<string>>,
    issuer: Option<string>)

  /** `getHeaderClaim(name)`: an absent claim when the header has no such name. */
  function HeaderClaim(jwt: DecodedJWT, name: string): (c: Claim)
    ensures name !in jwt.header ==> c == AbsentClaim
    ensures name in jwt.header ==> c == jwt.header[name]
  {
    if name in jwt.header then jwt.header[name] else AbsentClaim
  }

  /** A `java.security.PublicKey`: an RSA key as the JWKS provider returns, or any other implementation. */
  datatype PublicKey =
    | RsaPublicKey(encoded: seq<bv8>)
    | OtherPublicKey(algorithm: string, format: string, encoded: seq<bv8>)

  /**
   * The verifier `JWT.require(Algorithm.RSA256(rsaKey, null))
   * .withAnyOfAudience(...).withIssuer(...).build()`.
   */
  datatype Verification = Verification(rsaKey: seq<bv8>, anyOfAudience: seq<string>, issuer: string)

  /**
   * The library calls, each returning a value or throwing:
   * `URL(url)` (only a possible `MalformedURLException`), `JWT.decode`,
   * `jwkProvider.get(kid).publicKey` for the provider built from the given
   * settings, and `verifier.verify`.
   */
  datatype JwtLibrary = JwtLibrary(
    openUrl: string -> Option<Thrown>,
    decode: string -> Result<DecodedJWT, Thrown>,
    getPublicKey: (ProviderSettings, Option<string>) -> Result<PublicKey, Thrown>,
    verify: (Verification, string) -> Result<DecodedJWT, Thrown>)

  /**
   * What a token verifier returns: the library's `DecodedJWT` (earlier
   * generations), or the plugin's own `DecodedJwt` wrapping just the token.
   */
  datatype VerifiedToken = Decoded(jwt: DecodedJWT) | TokenOnly(token: string)
}
