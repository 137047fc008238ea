/**
 * A stand-in for the jsonwebtoken library: a signed token is modelled as the
 * claims it carries together with the key it was signed with, and
 * verification as the library's checks in its own order: the token text,
 * the presence of a key, the key itself, then the audience and issuer
 * claims. The HMAC, the encoding of the token text and the expiry check are
 * not modelled.
 */
module Jwt {
  import opened Wrappers

  /**
   * The claims of a token as the token factory writes them (IAuthToken and
   * IVerifyToken); `userRoles` is absent from verification tokens.
   */
  datatype Payload = Payload(
    id: string,
    exp: int,
    userRoles: Option<seq<string>>,
    tokenId: string,
    scopes: seq<string>,
    aud: string,
    iss: string)

  /** The audience and issuer that verification expects. */
  datatype VerifyOptions = VerifyOptions(audience: string, issuer: string)

  /**
   * A token presented for verification: one the library signed, or text the
   * library cannot decode as a token.
   */
  datatype Token = Signed(claims: Payload, key: string) | Malformed(text: string)

  /** The errors signing and verification report. */
  datatype JwtError =
    | SecretOrPrivateKeyMissing       // sign: "secretOrPrivateKey must have a value"
    | JwtMustBeProvided               // verify: the token text is empty
    | JwtMalformed                    // verify: the text is not three dot-separated parts
    | InvalidToken                    // verify: three parts that do not decode
    | SecretOrPublicKeyMissing        // verify: "secret or public key must be provided"
    | InvalidSignature
    | AudienceInvalid(expectedAudience: string)
    | IssuerInvalid(expectedIssuer: string)

  /** The number of '.' separators in a text. */
  function Dots(s: string): nat
  {
    if s == [] then 0 else (if s[0] == '.' then 1 else 0) + Dots(s[1..])
  }

  /** jwt.sign: the token for the given claims under the given secret; an empty secret is refused. */
  function Sign(claims: Payload, secret: string): (r: Result<Token, JwtError>)
    ensures r.Success? <==> secret != ""
    ensures r.Success? ==> r.value.Signed? && r.value.claims == claims && r.value.key == secret
    ensures r.Failure? ==> r.error == SecretOrPrivateKeyMissing
  {
    if secret == "" then Failure(SecretOrPrivateKeyMissing) else Success(Signed(claims, secret))
  }

  /**
   * jwt.verify: a token is accepted only if it decodes, a non-empty secret is
   * given, it was signed with that secret and it carries the expected
   * audience and issuer; it then yields its claims unchanged.
   */
  function Verify(token: Token, secret: string, options: VerifyOptions): (r: Result<Payload, JwtError>)
    ensures r.Success? <==> token.Signed? && secret != "" && token.key == secret
                            && token.claims.aud == options.audience && token.claims.iss == options.issuer
    ensures r.Success? ==> r.value == token.claims
    ensures token.Malformed? ==> r.Failure? && r.error in {JwtMustBeProvided, JwtMalformed, InvalidToken}
    ensures token.Malformed? && token.text == "" ==> r == Failure(JwtMustBeProvided)
    ensures token.Signed? && secret == "" ==> r == Failure(SecretOrPublicKeyMissing)
    ensures token.Signed? && secret != "" && token.key != secret ==> r == Failure(InvalidSignature)
  {
    match token
    case Malformed(text) =>
      if text == "" then Failure(JwtMustBeProvided)
      else if Dots(text) != 2 then Failure(JwtMalformed)
      else Failure(InvalidToken)
    case Signed(claims, key) =>
      if secret == "" then Failure(SecretOrPublicKeyMissing)
      else if key != secret then Failure(InvalidSignature)
      else if claims.aud != options.audience then Failure(AudienceInvalid(options.audience))
      else if claims.iss != options.issuer then Failure(IssuerInvalid(options.issuer))
      else Success(claims)
  }

  /**
   * Verifying a token with the secret it was signed with gives back its
   * claims; with an empty secret there is no token to verify.
   */
  lemma SignVerifyRoundTrip(claims: Payload, secret: string, options: VerifyOptions)
    requires claims.aud == options.audience && claims.iss == options.issuer
    ensures secret == "" ==> Sign(claims, secret) == Failure(SecretOrPrivateKeyMissing)
    ensures secret != "" ==> Verify(Sign(claims, secret).value, secret, options) == Success(claims)
  {
  }

  /**
   * A token signed with one secret is rejected under another: as having an
   * invalid signature, or for lack of a key when the other secret is empty.
   */
  lemma VerifyRejectsForeignSecret(claims: Payload, signedWith: string, secret: string, options: VerifyOptions)
    requires signedWith != secret
    ensures Sign(claims, signedWith).Success? ==>
      Verify(Sign(claims, signedWith).value, secret, options)
        == Failure(if secret == "" then SecretOrPublicKeyMissing else InvalidSignature)
  {
  }
}
