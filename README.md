# Token factory and username validator of nodeRT

This project models the part of the nodeRT blog backend that issues and checks
its JSON Web Tokens, together with the username length rule of its user schema.

- **Secret lookup.** `getSecret` reads `SECRET_JWT` from the environment and fails
  with "Cannot get secret" when it is not set.
- **Token types.** There are three token types: `AuthToken`, `PassResetToken` and
  `VerifyAccountToken`. Two constant tables give each type a scope list of one
  permission and an expiry of one hour, in milliseconds.
- **Builders.** `getAuthToken` builds a payload and signs it. The payload holds the
  user id, the user's roles, the token id, the Authorization scopes, `exp = now +
  duration` and the fixed `aud`/`iss` claims. `getVerificationToken` builds the
  same kind of payload without roles and with the VerifyAccount scopes.
- **Checking.** `decodeToken` verifies a token's signature, audience and issuer.
  `verifyToken` then accepts the token only if the decoded `scopes` equal the
  expected type's list. The code compares the two lists as `JSON.stringify` text.
- **Username rule.** `validateUsername` accepts a name whose JavaScript `length` is
  above 4 and below 30.

Modules, one per file:

- `Wrappers` (`wrappers.dfy`): `Option` and `Result`.
- `Json` (`json.dfy`): `JSON.stringify` of an array of strings, written to the
  escaping rules of ECMAScript's `QuoteJSONString`. It comes with the inverse
  parser for such arrays. It proves that two arrays give the same text exactly when
  they are equal sequences, which is why the text comparison in `verifyToken` is an
  ordered, element-by-element comparison.
- `Jwt` (`jwt.dfy`): a stand-in for the `jsonwebtoken` library. A signed token is
  the claims it carries plus the key it was signed with; signing refuses an empty
  secret. Verification follows the library's order: text that does not decode as a
  token is rejected first, then an empty key, then a wrong key, then the audience,
  then the issuer.
- `TokenFactory` (`token_factory.dfy`): the tables, `getSecret`, the two builders,
  `decodeToken` and `verifyToken`.
  - The factory's one field, the secret read once in its constructor, is a `secret`
    parameter of every operation. The constructor itself is `GetSecret`.
  - `Date.now()` is a `now` parameter.
  - The environment is a `map<string, string>` parameter.
- `UserModel` (`user_model.dfy`): `validateUsername`. JavaScript's `length` counts
  UTF-16 code units, so a character outside the Basic Multilingual Plane counts
  twice.

The permission constants `Permissions.APP.USE`, `Permissions.USER.PASS_RESET` and
`Permissions.USER.VERIFY` come from `Permissions.ts`, which is not part of this
model. They are declared without values. Every fact that needs them to differ
takes `PermissionsDistinct()` as a precondition.

## Model

| member | source | states |
|---|---|---|
| TokenFactory.GetSecret | backend/src/factories/Token/TokenFactory.ts:19-25 | succeeds exactly when `SECRET_JWT` is set and then returns its value; otherwise fails with "Cannot get secret" |
| TokenFactory.TypeName | backend/src/factories/Token/TokenFactory.ts:8-17 | each token type is named by one of the three strings `AuthToken`, `PassResetToken`, `VerifyAccountToken` |
| TokenFactory.TypeNameInjective | backend/src/factories/Token/TokenFactory.ts:28-32 | distinct token types have distinct names, so the tables keyed by name hold one entry per type |
| TokenFactory.Permissions | backend/src/factories/Token/TokenFactory.ts:34-38 | every token type's scope list holds exactly one permission, one of the three permission constants |
| TokenFactory.PermissionsInjective | backend/src/factories/Token/TokenFactory.ts:34-38 | when the permission constants differ, two types have the same scope list only if they are the same type |
| TokenFactory.ExpTime | backend/src/factories/Token/TokenFactory.ts:40-44 | every token type expires after 60 * 60 * 1000 ms |
| TokenFactory.GetAuthToken | backend/src/factories/Token/TokenFactory.ts:61-81 | fails with the library's missing-key error exactly when the secret is empty; otherwise the returned payload holds the user id, the given roles, the given token id, the Authorization scopes, exp = now + 3600000 and the fixed audience and issuer; decoding the returned token with the same secret gives exactly that payload, and it verifies as an Authorization token |
| TokenFactory.GetVerificationToken | backend/src/factories/Token/TokenFactory.ts:83-93 | fails with the library's missing-key error exactly when the secret is empty; otherwise the token decodes to a payload with the id, the token id, no roles, the VerifyAccount scopes, exp = now + 3600000 and the fixed audience and issuer, and it verifies as a VerifyAccount token |
| TokenFactory.DecodeToken | backend/src/factories/Token/TokenFactory.ts:95-110 | succeeds exactly for a well-formed token signed with the factory's secret, which must not be empty, and whose audience and issuer are the factory's; the result is the token's payload unchanged |
| TokenFactory.ScopesMatch | backend/src/factories/Token/TokenFactory.ts:118-120 | comparing the two scope lists as JSON text is true exactly when they are the same sequence |
| TokenFactory.VerifyToken | backend/src/factories/Token/TokenFactory.ts:112-130 | succeeds exactly when decoding succeeds and the decoded scopes equal the expected type's list, and then returns the decoded payload; a decode error is passed on unchanged; a scope mismatch fails with 'Wrong scopes' |
| TokenFactory.AuthTokenVerifiesOnlyAsAuthorization | backend/src/factories/Token/TokenFactory.ts:112-125 | when the permission constants differ, an issued authentication token verifies as Authorization, giving its payload, and fails with 'Wrong scopes' for the other two types |
| TokenFactory.VerificationTokenVerifiesOnlyAsVerifyAccount | backend/src/factories/Token/TokenFactory.ts:83-93 | when the permission constants differ, an issued verification token verifies as VerifyAccount and fails with 'Wrong scopes' for Authorization and PassReset |
| TokenFactory.VerifyTokenDeterminesType | backend/src/factories/Token/TokenFactory.ts:118-125 | when the permission constants differ, no token is accepted for two different token types |
| TokenFactory.IssuedTokensRejectedUnderOtherSecret | backend/src/factories/Token/TokenFactory.ts:95-110 | tokens of either builder are rejected by a factory holding a different secret: with an invalid-signature error, or with the missing-key error when that secret is empty |
| TokenFactory.UndecodableTokenRejected | backend/src/factories/Token/TokenFactory.ts:126-128 | text that does not decode as a token is rejected with one of the library's text errors ("jwt must be provided" for empty text, malformed, invalid token), passed on unchanged |
| TokenFactory.EmptySecretCannotSign | backend/src/factories/Token/TokenFactory.ts:19-25 | an empty `SECRET_JWT` passes getSecret, which only rejects an unset variable, but both builders then fail with the library's missing-key error |
| Jwt.Sign | backend/src/factories/Token/TokenFactory.ts:76 | fails with "secretOrPrivateKey must have a value" exactly when the secret is empty; otherwise yields a token that carries exactly the given claims and that secret |
| Jwt.Verify | backend/src/factories/Token/TokenFactory.ts:97-108 | accepts exactly a decodable token, under a non-empty secret, with the right key, audience and issuer, and returns its claims; undecodable text, an empty secret and a wrong key give their own errors |
| Jwt.SignVerifyRoundTrip | backend/src/factories/Token/TokenFactory.ts:76 | verifying a token with the non-empty secret it was signed with gives back its claims, when they carry the expected audience and issuer; an empty secret signs nothing |
| Jwt.VerifyRejectsForeignSecret | backend/src/factories/Token/TokenFactory.ts:97-105 | a token signed with another secret fails with an invalid-signature error, or with the missing-key error when the verifying secret is empty |
| Json.Stringify | backend/src/factories/Token/TokenFactory.ts:119 | writes a bracketed text that is `[]` exactly for the empty array and otherwise opens with the first string literal; the literals follow the escaping of ECMAScript's QuoteJSONString (Json.EscapeChar) |
| Json.StringifyInjective | backend/src/factories/Token/TokenFactory.ts:118-120 | two string arrays have the same JSON.stringify text exactly when they are equal, element by element and in order |
| Json.ParseStringify | backend/src/factories/Token/TokenFactory.ts:119 | parsing the JSON text of a string array gives the array back |
| Json.EscapeChar | backend/src/factories/Token/TokenFactory.ts:119 | a character written without an escape is neither a quote nor a control character |
| Json.HexDigit | backend/src/factories/Token/TokenFactory.ts:119 | the hexadecimal digit written for a nibble reads back as that nibble |
| UserModel.CodeUnits | backend/src/models/User/UserModel.ts:5 | a character contributes one UTF-16 code unit exactly when it lies in the Basic Multilingual Plane, two otherwise |
| UserModel.Utf16Length | backend/src/models/User/UserModel.ts:5 | a string's JavaScript length lies between its character count and twice that |
| UserModel.Utf16LengthOfBmp | backend/src/models/User/UserModel.ts:5 | for Basic Multilingual Plane text the length is the character count |
| UserModel.Utf16LengthOfAstral | backend/src/models/User/UserModel.ts:5 | a character outside the Basic Multilingual Plane makes the length exceed the character count |
| UserModel.ValidateUsername | backend/src/models/User/UserModel.ts:4-6 | accepts a name exactly when its length is from 5 to 29 code units |
| UserModel.ValidateUsernameRejectsBoundaries | backend/src/models/User/UserModel.ts:5 | lengths 4 and 30 are rejected, and so is the empty name |
| UserModel.ValidateUsernameAcceptsBoundaries | backend/src/models/User/UserModel.ts:5 | lengths 5 and 29 are accepted |
| UserModel.ValidateUsernameDependsOnLengthOnly | backend/src/models/User/UserModel.ts:5 | two names of equal length get the same answer |
| UserModel.ValidateUsernameOfBmp | backend/src/models/User/UserModel.ts:4-6 | for Basic Multilingual Plane names the accepted character counts are 5 to 29 |
| UserModel.ValidateUsernameCountsCodeUnits | backend/src/models/User/UserModel.ts:5 | three emoji, six code units, are accepted; two emoji, four code units, are rejected |

## Left out

- Cryptography. The HMAC signature and the encoding of the token text inside `jsonwebtoken` are not modelled. A token is the pair of its claims and its key, so `Jwt.Verify` gives back exactly the claims that were signed. This stands for the library's round trip through `JSON.stringify` and `JSON.parse`.
- Jwt.Verify: which of its text errors ("jwt malformed" or "invalid token") undecodable text gets is decided by counting the dots in the text; the library's own base64 and JSON decoding of the parts, and its header and algorithm checks, are not modelled.
- Expiry check. `jsonwebtoken`'s check of `exp` against the clock is not modelled, only the arithmetic `now + 3600000`. The builders store `exp` in milliseconds (`Date.now()` plus the duration). Section 4.1.4 of RFC 7519 defines `exp` as a NumericDate in seconds, and the library compares it with the current time in seconds. A token issued at t seconds carries `exp` of about 1000 * t, so it expires only when the clock in seconds reaches that value. The window is about 999 * t seconds, which is tens of thousands of years for a present-day clock and in practice indefinite. So for the tokens the two builders issue with a real clock, a decode that ignores `exp` agrees with the program.
- TokenFactory.DecodeToken: its if-and-only-if, like `Jwt.Verify`'s, leaves out jsonwebtoken's rejection with 'jwt expired' of a token whose `exp` is at or before the current time in seconds. A token with a small `exp`, one not made by the builders or made with a clock near zero, is accepted here and rejected by the program.
- Promises and callbacks. `decodeToken` and `verifyToken` return promises; here they return a `Result`, and a rejection is the value the promise rejects with.
- Payload shape. A decoded payload is assumed to hold the fields of `IAuthToken`/`IVerifyToken` with their declared types. A payload whose `scopes` field is missing or is not an array of strings cannot be represented.
- Lone surrogates. JavaScript strings may hold unpaired surrogate code units; Dafny characters are Unicode scalar values, so such strings, and their `\udxxx` escapes in `JSON.stringify`, are not represented.
- Permission values. `Permissions.ts` is not part of this model. The three permission constants have no values here, and their pairwise difference is a stated precondition.
- User record. `IUserModel` is not part of this model; only its `id`, the one field the factory reads, is kept. The model assumes the caller's user object supplies `id` as a string. The user schema turns off mongoose's `id` getter (`{ id: false }`), and without an `id` the `JSON.stringify` at the signing call would leave `id` out of the signed payload.
- Password-reset tokens. The `PassReset` type has a scope list and an expiry in the tables, but the factory has no builder for it, so none is modelled.
- Rest of the repository. The token blacklist and the `authorize` middleware (in `TokenService` and other files) are not part of this model. Neither are the HTTP controllers, the routes, the dependency-injection container, file uploads, the mongoose schemas other than the username validator, and the React and rxjs frontend.
