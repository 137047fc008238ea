/**
 * The token factory: the permission and expiry tables of the three token
 * types, the builders of authentication and account-verification tokens,
 * and the check that a presented token is of the expected type.
 *
 * The factory's only state is the secret it reads once when it is built;
 * every operation takes that secret as a parameter, and the current time
 * (`Date.now()`, in milliseconds) as `now`.
 */
module TokenFactory {
  import opened Wrappers
  import opened Jwt
  import Json

  /** The environment variable that holds the signing secret. */
  const SecretVariable := "SECRET_JWT"

  /** The message getSecret fails with. */
  const CannotGetSecret := "Cannot get secret"

  /** getSecret: the value of SECRET_JWT, or a failure when it is not set. */
  function GetSecret(env: map<string, string>): (r: Result<string, string>)
    ensures r.Success? <==> SecretVariable in env
    ensures r.Success? ==> r.value == env[SecretVariable]
    ensures r.Failure? ==> r.error == CannotGetSecret
  {
    if SecretVariable in env then Success(env[SecretVariable]) else Failure(CannotGetSecret)
  }

  /** The three kinds of token the factory issues and checks. */
  datatype TokenType = Authorization | PassReset | VerifyAccount

  /** TokenTypes: the string constant that names each type. */
  function TypeName(t: TokenType): (name: string)
    ensures name in {"AuthToken", "PassResetToken", "VerifyAccountToken"}
  {
    match t
    case Authorization => "AuthToken"
    case PassReset => "PassResetToken"
    case VerifyAccount => "VerifyAccountToken"
  }

  /** Distinct types have distinct names, so the tables keyed by name hold one entry per type. */
  lemma TypeNameInjective(a: TokenType, b: TokenType)
    ensures TypeName(a) == TypeName(b) <==> a == b
  {
  }

  // Permissions.APP.USE, Permissions.USER.PASS_RESET and Permissions.USER.VERIFY.
  // The module that defines them is not part of this model, so their values
  // are left unspecified; the facts that need them to differ say so.
  const AppUse: string
  const UserPassReset: string
  const UserVerify: string

  /** The three permission constants are pairwise different. */
  predicate PermissionsDistinct()
  {
    AppUse != UserPassReset && AppUse != UserVerify && UserPassReset != UserVerify
  }

  /** Permissions: the scope list of each token type, a single permission. */
  function Permissions(t: TokenType): (scopes: seq<string>)
    ensures |scopes| == 1
    ensures scopes[0] in {AppUse, UserPassReset, UserVerify}
  {
    match t
    case Authorization => [AppUse]
    case PassReset => [UserPassReset]
    case VerifyAccount => [UserVerify]
  }

  /** When the permissions differ, the scope list identifies the token type. */
  lemma PermissionsInjective(a: TokenType, b: TokenType)
    requires PermissionsDistinct()
    ensures Permissions(a) == Permissions(b) <==> a == b
  {
  }

  /** ExpTime: how long a token of each type stays valid, in milliseconds: one hour. */
  function ExpTime(t: TokenType): (ms: nat)
    ensures ms == 60 * 60 * 1000
  {
    match t
    case Authorization => 3600000
    case PassReset => 3600000
    case VerifyAccount => 3600000
  }

  /** TokenOptions: the audience and issuer written into every payload. */
  const Audience := "webdevag:client"
  const Issuer := "webdevag:issuer"

  /** TokenOptionsVerify: the audience and issuer a decoded token must carry. */
  const TokenOptionsVerify := VerifyOptions(Audience, Issuer)

  /** The part of a user record the factory reads. */
  datatype User = User(id: string)

  /** What getAuthToken returns: the signed token and the payload it signed. */
  datatype IssuedToken = IssuedToken(token: Token, payload: Payload)

  /** Why verifyToken rejects: the library's error, or a message of the factory's own. */
  datatype Rejection = JwtFailure(error: JwtError) | Reason(message: string)

  /** The rejection of a token whose scopes are not those of the expected type. */
  const WrongScopes := Reason("Wrong scopes")

  /**
   * getAuthToken: a signed authentication token for the user and the roles it
   * holds now, with the payload it signed. With an empty secret jwt.sign
   * throws, and so does getAuthToken.
   */
  function GetAuthToken(secret: string, now: int, user: User, userRoles: seq<string>, tokenId: string)
    : (r: Result<IssuedToken, JwtError>)
    ensures r.Success? <==> secret != ""
    ensures r.Failure? ==> r.error == SecretOrPrivateKeyMissing
    ensures r.Success? ==>
      && r.value.payload.id == user.id && r.value.payload.tokenId == tokenId
      && r.value.payload.userRoles == Some(userRoles)
      && r.value.payload.scopes == [AppUse]
      && r.value.payload.exp == now + 3600000
      && r.value.payload.aud == "webdevag:client" && r.value.payload.iss == "webdevag:issuer"
    ensures r.Success? ==> DecodeToken(secret, r.value.token) == Success(r.value.payload)
    ensures r.Success? ==> VerifyToken(secret, r.value.token, Authorization) == Success(r.value.payload)
  {
    var payload := Payload(
      id := user.id,
      exp := now + ExpTime(Authorization),
      userRoles := Some(userRoles),
      tokenId := tokenId,
      scopes := Permissions(Authorization),
      aud := Audience,
      iss := Issuer);
    match Sign(payload, secret)
    case Failure(e) => Failure(e)
    case Success(token) => Success(IssuedToken(token, payload))
  }

  /**
   * getVerificationToken: a signed account-verification token, without roles.
   * With an empty secret jwt.sign throws, and so does getVerificationToken.
   */
  function GetVerificationToken(secret: string, now: int, id: string, tokenId: string): (r: Result<Token, JwtError>)
    ensures r.Success? <==> secret != ""
    ensures r.Failure? ==> r.error == SecretOrPrivateKeyMissing
    ensures r.Success? ==> DecodeToken(secret, r.value).Success?
    ensures r.Success? ==>
      var p := DecodeToken(secret, r.value).value;
      && p.id == id && p.tokenId == tokenId
      && p.userRoles == None
      && p.scopes == [UserVerify]
      && p.exp == now + 3600000
      && p.aud == "webdevag:client" && p.iss == "webdevag:issuer"
    ensures r.Success? ==> VerifyToken(secret, r.value, VerifyAccount) == Success(DecodeToken(secret, r.value).value)
  {
    var payload := Payload(
      id := id,
      exp := now + ExpTime(VerifyAccount),
      userRoles := None,
      tokenId := tokenId,
      scopes := Permissions(VerifyAccount),
      aud := Audience,
      iss := Issuer);
    Sign(payload, secret)
  }

  /**
   * decodeToken: the payload of a token signed with this factory's secret and
   * carrying its audience and issuer, or the library's error.
   */
  function DecodeToken(secret: string, token: Token): (r: Result<Payload, JwtError>)
    ensures r.Success? <==> token.Signed? && secret != "" && token.key == secret
                            && token.claims.aud == Audience && token.claims.iss == Issuer
    ensures r.Success? ==> r.value == token.claims
  {
    Verify(token, secret, TokenOptionsVerify)
  }

  /**
   * doScopesMatch: the decoded scopes and the expected ones compared as JSON
   * text, which is the same as comparing them element by element, in order.
   */
  function ScopesMatch(scopes: seq<string>, tokenType: TokenType): (ok: bool)
    ensures ok <==> scopes == Permissions(tokenType)
  {
    Json.StringifyInjective(scopes, Permissions(tokenType));
    Json.Stringify(scopes) == Json.Stringify(Permissions(tokenType))
  }

  /**
   * verifyToken: accepts a token exactly when it decodes and its scopes are
   * those of the expected type, and then yields the decoded payload; a decode
   * error is passed on, a scope mismatch is rejected with 'Wrong scopes'.
   */
  function VerifyToken(secret: string, token: Token, tokenType: TokenType): (r: Result<Payload, Rejection>)
    ensures r.Success? <==> DecodeToken(secret, token).Success?
                            && DecodeToken(secret, token).value.scopes == Permissions(tokenType)
    ensures r.Success? ==> r.value == DecodeToken(secret, token).value
    ensures DecodeToken(secret, token).Failure? ==> r == Failure(JwtFailure(DecodeToken(secret, token).error))
    ensures DecodeToken(secret, token).Success? ==>
              (DecodeToken(secret, token).value.scopes != Permissions(tokenType) ==> r == Failure(WrongScopes))
  {
    match DecodeToken(secret, token)
    case Failure(e) => Failure(JwtFailure(e))
    case Success(decoded) =>
      if ScopesMatch(decoded.scopes, tokenType) then Success(decoded) else Failure(WrongScopes)
  }

  /** An authentication token passes as an authentication token and as nothing else. */
  lemma AuthTokenVerifiesOnlyAsAuthorization(secret: string, now: int, user: User, userRoles: seq<string>, tokenId: string, tokenType: TokenType)
    requires PermissionsDistinct()
    ensures var issued := GetAuthToken(secret, now, user, userRoles, tokenId);
      issued.Success? ==>
        VerifyToken(secret, issued.value.token, tokenType)
          == if tokenType == Authorization then Success(issued.value.payload) else Failure(WrongScopes)
  {
  }

  /** A verification token passes as a verification token and is rejected for the other types. */
  lemma VerificationTokenVerifiesOnlyAsVerifyAccount(secret: string, now: int, id: string, tokenId: string, tokenType: TokenType)
    requires PermissionsDistinct()
    ensures var t := GetVerificationToken(secret, now, id, tokenId);
      t.Success? ==>
        VerifyToken(secret, t.value, tokenType)
          == if tokenType == VerifyAccount then Success(DecodeToken(secret, t.value).value) else Failure(WrongScopes)
  {
  }

  /** A token is accepted for at most one token type. */
  lemma VerifyTokenDeterminesType(secret: string, token: Token, a: TokenType, b: TokenType)
    requires PermissionsDistinct()
    requires VerifyToken(secret, token, a).Success? && VerifyToken(secret, token, b).Success?
    ensures a == b
  {
  }

  /**
   * A token the factory issued under one secret is rejected by a factory
   * holding another: as having an invalid signature, or for lack of a key
   * when the other factory's secret is empty.
   */
  lemma IssuedTokensRejectedUnderOtherSecret(secret: string, other: string, now: int, user: User, userRoles: seq<string>, tokenId: string, tokenType: TokenType)
    requires other != secret
    ensures var expected := Failure(JwtFailure(if other == "" then SecretOrPublicKeyMissing else InvalidSignature));
      && (GetAuthToken(secret, now, user, userRoles, tokenId).Success? ==>
            VerifyToken(other, GetAuthToken(secret, now, user, userRoles, tokenId).value.token, tokenType) == expected)
      && (GetVerificationToken(secret, now, user.id, tokenId).Success? ==>
            VerifyToken(other, GetVerificationToken(secret, now, user.id, tokenId).value, tokenType) == expected)
  {
  }

  /**
   * Text the library cannot decode as a token is rejected with one of its
   * text errors, passed on unchanged before any scope check; empty text with
   * "jwt must be provided".
   */
  lemma UndecodableTokenRejected(secret: string, text: string, tokenType: TokenType)
    ensures VerifyToken(secret, Malformed(text), tokenType).Failure?
    ensures VerifyToken(secret, Malformed(text), tokenType).error
              in {JwtFailure(JwtMustBeProvided), JwtFailure(JwtMalformed), JwtFailure(InvalidToken)}
    ensures text == "" ==> VerifyToken(secret, Malformed(text), tokenType) == Failure(JwtFailure(JwtMustBeProvided))
  {
  }

  /** An empty secret: getSecret accepts it, but neither builder can sign with it. */
  lemma EmptySecretCannotSign(env: map<string, string>, now: int, user: User, userRoles: seq<string>, tokenId: string)
    requires SecretVariable in env && env[SecretVariable] == ""
    ensures GetSecret(env) == Success("")
    ensures GetAuthToken(GetSecret(env).value, now, user, userRoles, tokenId) == Failure(SecretOrPrivateKeyMissing)
    ensures GetVerificationToken(GetSecret(env).value, now, user.id, tokenId) == Failure(SecretOrPrivateKeyMissing)
  {
  }
}
