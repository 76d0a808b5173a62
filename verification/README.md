# Magic-link authentication for Keycloak, modelled in Dafny

This project models the decision logic of a Keycloak extension that lets a
user finish an OAuth2/OIDC authorization-code login by clicking a link sent by
email. It has three parts.

- **The action token** (`ActionToken`, `action_token.dfy`). This is the payload
  carried in the link. It holds the user id, the token type
  `email-magic-link`, the client it was issued for (`issuedFor`), an expiry,
  and seven optional OAuth2/OIDC parameters: redirect URI, scope, state, nonce,
  PKCE code challenge and method (section 4.3 of RFC 7636), and response mode.
  Each parameter is serialized under a short JSON key (`rdu`, `scope`, `state`,
  `nonce`, `cc`, `ccm`, `rm`). The token is a class with the source's
  constructors, getters and setters. `Encode`/`Decode` model the mapping from
  parameters to JSON keys.
- **The token handler** (`ActionTokenHandler`, `action_token_handler.dfy`).
  - `StartFreshAuthenticationSession` creates a session for the token's client.
    It copies each present parameter to a client note and always sets
    `response_type=code`.
  - `HandleToken` resolves the user (an unknown user is an `InvalidUser` error)
    and marks the user's email verified.
  - If the session has no redirect URI, `HandleToken` then checks the token's
    URI against the client. A rejected URI is a fatal `InvalidRedirectUri`
    error.
  - Both methods work in place on an `AuthenticationSession` object and a
    `UserStore` object. Each is proved against a pure function
    (`FreshSessionState`, `HandleTokenSpec`) whose properties are proved.
- **The attribute-based endpoint** (`MagicLinkResource`,
  `magic_link_resource.dfy`). `Verify` is an ordered validation chain over the
  user's attributes. It checks, in this order:
  1. blank parameters;
  2. unknown user;
  3. missing stored code or expiry;
  4. an expiry that does not parse, or has passed;
  5. a wrong code.

  A successful check, an expired entry or an unreadable expiry removes the
  stored code (`clearUserCode`), so a code works only once. `now` is a
  parameter. Java's `Long.parseLong` is modelled by the partial parser
  `JavaLong.ParseLong` (`java_long.dfy`). Text written by `Long.toString`
  parses back to the same value. The converse does not hold: `"007"` and
  `"+5"` parse, but do not come back unchanged.
  Redirects are the datatype `Redirect`. `Location` gives the URI each one
  leads to.

`Options.Option` (`options.dfy`) stands for Java's nullable references.

Points of the code's behaviour that the model keeps as they are:

- **Invalid redirect URI.** A redirect URI that the client rejects ends in a
  fatal INVALID_REDIRECT_URI error page
  (`EmailMagicLinkActionTokenHandler.java:124-129`). There is no fallback to a
  default URI.
- **Order of steps.** The email is marked verified at
  `EmailMagicLinkActionTokenHandler.java:114`, before the redirect check at
  lines 121-129. So it stays verified when that check fails.
- **Redirect check on a fresh session.** A session built by
  `startFreshAuthenticationSession` already carries the token's redirect URI,
  so `handleToken` never runs the check on it. The lemma
  `FreshSessionSkipsRedirectCheck` proves this.
- **Replay.** The code keeps no replay ledger of its own, and none is
  modelled.

## Model

| member | source | states |
|---|---|---|
| `ActionToken.EmailMagicLinkActionToken.constructor` | src/main/java/com/mesutpiskin/keycloak/auth/email/token/EmailMagicLinkActionToken.java:52-72 | the token type is `email-magic-link`, `issuedFor` is the client id, and every getter returns its own argument (`GetState` the `state` argument and `GetNonce` the `nonce` argument, although `nonce` comes first); an absent argument stays absent |
| `ActionToken.EmailMagicLinkActionToken.Empty` | src/main/java/com/mesutpiskin/keycloak/auth/email/token/EmailMagicLinkActionToken.java:74-77 | the no-argument constructor leaves all seven OIDC parameters absent |
| `ActionToken.EmailMagicLinkActionToken.SetRedirectUri` | src/main/java/com/mesutpiskin/keycloak/auth/email/token/EmailMagicLinkActionToken.java:83-85 | sets the redirect URI; every other field is unchanged |
| `ActionToken.EmailMagicLinkActionToken.SetScope` | src/main/java/com/mesutpiskin/keycloak/auth/email/token/EmailMagicLinkActionToken.java:91-93 | sets the scope; every other field is unchanged |
| `ActionToken.EmailMagicLinkActionToken.SetState` | src/main/java/com/mesutpiskin/keycloak/auth/email/token/EmailMagicLinkActionToken.java:99-101 | sets the state; every other field is unchanged |
| `ActionToken.EmailMagicLinkActionToken.SetNonce` | src/main/java/com/mesutpiskin/keycloak/auth/email/token/EmailMagicLinkActionToken.java:107-109 | sets the nonce; every other field is unchanged |
| `ActionToken.EmailMagicLinkActionToken.SetCodeChallenge` | src/main/java/com/mesutpiskin/keycloak/auth/email/token/EmailMagicLinkActionToken.java:115-117 | sets the PKCE code challenge; every other field is unchanged |
| `ActionToken.EmailMagicLinkActionToken.SetCodeChallengeMethod` | src/main/java/com/mesutpiskin/keycloak/auth/email/token/EmailMagicLinkActionToken.java:123-125 | sets the PKCE method; every other field is unchanged |
| `ActionToken.EmailMagicLinkActionToken.SetResponseMode` | src/main/java/com/mesutpiskin/keycloak/auth/email/token/EmailMagicLinkActionToken.java:131-133 | sets the response mode; every other field is unchanged |
| `ActionToken.JsonKeyInjective` | src/main/java/com/mesutpiskin/keycloak/auth/email/token/EmailMagicLinkActionToken.java:23-29 | the seven JSON keys are pairwise distinct |
| `ActionToken.EncodeContents` | src/main/java/com/mesutpiskin/keycloak/auth/email/token/EmailMagicLinkActionToken.java:31-50 | each parameter is found under its own JSON key exactly when it is present, with its value unchanged, and no other key is written |
| `ActionToken.DecodeEncode` | src/main/java/com/mesutpiskin/keycloak/auth/email/token/EmailMagicLinkActionToken.java:23-50 | reading the keys back recovers every parameter, present or absent |
| `ActionToken.EncodeInjective` | src/main/java/com/mesutpiskin/keycloak/auth/email/token/EmailMagicLinkActionToken.java:23-50 | two different parameter sets never serialize to the same key map |
| `ActionTokenHandler.AuthenticationSession.ForClient` | src/main/java/com/mesutpiskin/keycloak/auth/email/token/EmailMagicLinkActionTokenHandler.java:49 | a new session belongs to the given client and has no notes, no redirect URI and no user |
| `ActionTokenHandler.FreshClientNotesContents` | src/main/java/com/mesutpiskin/keycloak/auth/email/token/EmailMagicLinkActionTokenHandler.java:52-82 | `response_type` is always `code`; each of the other notes (redirect_uri, scope, state, nonce, code_challenge, code_challenge_method, response_mode) exists exactly when the token holds that parameter and carries its value unchanged; no other note is set |
| `ActionTokenHandler.StartFreshAuthenticationSession` | src/main/java/com/mesutpiskin/keycloak/auth/email/token/EmailMagicLinkActionTokenHandler.java:45-88 | the new session is fresh, belongs to the token's `issuedFor` client, has the token's redirect URI (absent when the token has none), and has exactly the client notes above |
| `ActionTokenHandler.HandleTokenSpec` | src/main/java/com/mesutpiskin/keycloak/auth/email/token/EmailMagicLinkActionTokenHandler.java:99-132 | an existing session user is kept and no lookup happens; otherwise an unknown or null user id gives INVALID_USER with nothing changed; past that point the user's email is verified on every path; the redirect check runs only when the token has a URI and the session has none, so an existing redirect is never overwritten; a rejected URI gives INVALID_REDIRECT_URI; an accepted one becomes the session redirect and sets `SET_REDIRECT_URI_AFTER_REQUIRED_ACTIONS=true`; client notes are never touched |
| `ActionTokenHandler.HandleToken` | src/main/java/com/mesutpiskin/keycloak/auth/email/token/EmailMagicLinkActionTokenHandler.java:90-147 | the outcome, the new session state and the verified-email set are exactly those of `HandleTokenSpec`; on success the outcome continues with the same session |
| `ActionTokenHandler.FreshSessionSkipsRedirectCheck` | src/main/java/com/mesutpiskin/keycloak/auth/email/token/EmailMagicLinkActionTokenHandler.java:121-132 | on a session just built from the token, handling it never fails with INVALID_REDIRECT_URI and keeps the token's redirect URI |
| `JavaLong.ParseLong` | src/main/java/com/mesutpiskin/keycloak/auth/email/MagicLinkResourceProvider.java:90 | a parsed value lies in the 64-bit range; the text is an optional `-` or `+` followed by at least one digit and nothing else; only a leading `-` gives a negative value |
| `JavaLong.ParseFormatRoundTrip` | src/main/java/com/mesutpiskin/keycloak/auth/email/MagicLinkResourceProvider.java:81-90 | every 64-bit value written in Java's decimal form parses back to itself |
| `JavaLong.ParseRejectsNoDigits` | src/main/java/com/mesutpiskin/keycloak/auth/email/MagicLinkResourceProvider.java:96-100 | the empty string and a lone sign do not parse |
| `JavaLong.ParseSignedDigits` | src/main/java/com/mesutpiskin/keycloak/auth/email/MagicLinkResourceProvider.java:89-100 | for every non-empty run of digits: bare or after `+` it parses to its value exactly when that value is at most 2^63-1; after `-` it parses to the negated value exactly when that value is at most 2^63; any larger value does not parse |
| `MagicLinkResource.ClearUserCode` | src/main/java/com/mesutpiskin/keycloak/auth/email/MagicLinkResourceProvider.java:121-124 | exactly the code and `emailCodeExpiresAt` attributes are removed; every other attribute keeps its values |
| `MagicLinkResource.VerifySpec` | src/main/java/com/mesutpiskin/keycloak/auth/email/MagicLinkResourceProvider.java:66-115 | success exactly when both parameters are non-blank, the user exists, the stored code equals the submitted one and the stored expiry parses and is not before `now`, and then the code is consumed. Blank parameters, an unknown user or a missing code or expiry are rejected with nothing changed. An unparsable or passed expiry (`now > expiresAt`) is rejected and clears the code whatever code was submitted. A wrong code on a live entry is rejected with nothing changed. Nothing but that user's two code attributes ever changes |
| `MagicLinkResource.ExpiredBeforeCodeCompare` | src/main/java/com/mesutpiskin/keycloak/auth/email/MagicLinkResourceProvider.java:88-106 | on an entry whose expiry has passed, any code, right or wrong, is rejected as expired and clears the entry |
| `MagicLinkResource.ExpiryBoundary` | src/main/java/com/mesutpiskin/keycloak/auth/email/MagicLinkResourceProvider.java:89-95 | a matching code at exactly the stored instant succeeds; one millisecond later it is expired |
| `MagicLinkResource.VerifySingleUse` | src/main/java/com/mesutpiskin/keycloak/auth/email/MagicLinkResourceProvider.java:79-115 | after a successful verification, any later verification for that user fails at the no-stored-code check |
| `MagicLinkResource.RedirectTargetsDiffer` | src/main/java/com/mesutpiskin/keycloak/auth/email/MagicLinkResourceProvider.java:129-154 | in a realm the error and success redirects lead to different paths, and the success redirect is the same whatever client or user it is built for |
| `MagicLinkResource.MagicLinkResourceProvider.Location` | src/main/java/com/mesutpiskin/keycloak/auth/email/MagicLinkResourceProvider.java:129-154 | every error redirect targets the realm's `protocol/openid-connect/auth` path with `error=magic_link_invalid` and the message as `error_description`; the success redirect targets the realm's `account` path with only `magic_link_success=true` |
| `MagicLinkResource.MagicLinkResourceProvider.ClearUserCodeOf` | src/main/java/com/mesutpiskin/keycloak/auth/email/MagicLinkResourceProvider.java:121-124 | the user's attribute map becomes `ClearUserCode` of the old one; other users are unchanged |
| `MagicLinkResource.MagicLinkResourceProvider.Verify` | src/main/java/com/mesutpiskin/keycloak/auth/email/MagicLinkResourceProvider.java:55-116 | the redirect and the new attributes of all users are exactly those of `VerifySpec` for the old attributes |

The getters (`GetRedirectUri`, `GetState`, ...) are plain field reads. The
constructor's contract is stated through them.

## Left out

- Signing, JWT serialization and expiry/one-time-use enforcement of the token
  all belong to Keycloak's action-token base classes. So do the inherited
  claims the base constructor fills in (token id, issue time, action
  verification nonce). None of these is modelled. The model keeps only the
  subject, type, expiry and `issuedFor` fields. Real serialization may write
  an absent parameter as JSON `null` rather than omit it. `Decode` reads both
  the same way, so this does not change the round trip.
- `ActionToken.EmailMagicLinkActionToken.Empty`: sets the inherited claims to
  absent, but its contract states only the seven OIDC fields. What the base
  class's no-argument constructor puts there is not part of this model.
- `RedirectUtils.verifyRedirectUri` is the function parameter
  `verifyRedirectUri` (URI and session client to an optional URI). Its rules
  for matching a client's registered URIs are not modelled.
- `createAuthenticationSessionForClient` is modelled as a new empty session for
  the client. Any notes the host sets on a new session are not modelled.
- `AuthenticationManager.nextRequiredAction` and `redirectToRequiredActions`
  are not modelled. They are reduced to the outcome `Continue(session)`.
- Login-form error pages are reduced to the error kinds `InvalidUser` and
  `InvalidRedirectUri`.
- Users in the handler are identified by id. "Email verified" is membership
  in `UserStore.emailVerified`. The aliasing between the session's user object
  and the store's user object is therefore not modelled.
- `EmailConstants` is not part of this model. The name of the attribute that
  holds the code is the provider's `codeAttribute` constant.
- `JavaLong.ParseLong`: accepts ASCII digits only. Java's `Character.digit`
  also accepts other Unicode decimal digits.
- The URIs carry the realm name and the query parameters as plain text. The
  model does not do the percent-encoding that `UriBuilder` applies.
- `System.currentTimeMillis` is the parameter `now`. Logging is left out.
- The SPI factories only register the handler and the provider, so they are
  left out. So is the test class, which exercises mocks only.
