/**
 * The attribute-based magic-link endpoint: `verify` checks a one-time code
 * stored on the user record, together with its expiry instant, and answers
 * with a redirect either to the login page with an error or to the account
 * page. A code that is accepted, expired or carries an unreadable expiry is
 * removed, so an accepted code works once.
 */
module MagicLinkResource {
  import opened Options
  import opened JavaLong

  type UserId = string

  /** A user's attributes: each name maps to its list of values. */
  type Attributes = map<string, seq<string>>

  /** The attribute holding the code's expiry, in epoch milliseconds as decimal text. */
  const EXPIRES_AT_ATTRIBUTE: string := "emailCodeExpiresAt"

  const MSG_INVALID_PARAMETERS: string := "Invalid magic link parameters"
  const MSG_USER_NOT_FOUND: string := "User not found"
  const MSG_CODE_NOT_FOUND: string := "Verification code not found or expired"
  const MSG_CODE_EXPIRED: string := "Verification code has expired"
  const MSG_INVALID_DATA: string := "Invalid verification data"
  const MSG_INVALID_CODE: string := "Invalid verification code"

  /** Java's `Character.isWhitespace`. */
  predicate IsWhitespace(c: char)
  {
    || ('\t' <= c <= '\r')
    || ('\U{001C}' <= c <= '\U{001F}')
    || c == ' '
    || c == '\U{1680}'
    || ('\U{2000}' <= c <= '\U{2006}')
    || ('\U{2008}' <= c <= '\U{200A}')
    || c == '\U{2028}' || c == '\U{2029}'
    || c == '\U{205F}' || c == '\U{3000}'
  }

  /** Java's `String.isBlank`: empty or whitespace only. */
  predicate IsBlank(s: string)
  {
    forall i :: 0 <= i < |s| ==> IsWhitespace(s[i])
  }

  predicate NullOrBlank(s: Option<string>)
  {
    s.None? || IsBlank(s.value)
  }

  /** `getFirstAttribute`: the first value of the attribute, null when it has none. */
  function FirstAttribute(attrs: Attributes, name: string): Option<string>
  {
    if name in attrs && |attrs[name]| > 0 then Some(attrs[name][0]) else None
  }

  function RemoveAttribute(attrs: Attributes, name: string): Attributes
  {
    attrs - {name}
  }

  /** `clearUserCode`: removes the code attribute, then the expiry attribute. */
  function ClearUserCode(attrs: Attributes, codeAttribute: string): (r: Attributes)
    ensures r.Keys == attrs.Keys - {codeAttribute, EXPIRES_AT_ATTRIBUTE}
    ensures forall name :: name in r ==> r[name] == attrs[name]
    ensures FirstAttribute(r, codeAttribute).None? && FirstAttribute(r, EXPIRES_AT_ATTRIBUTE).None?
  {
    RemoveAttribute(RemoveAttribute(attrs, codeAttribute), EXPIRES_AT_ATTRIBUTE)
  }

  /** Where `verify` sends the browser: the login page with an error, or the account page. */
  datatype Redirect = ErrorRedirect(message: string) | SuccessRedirect

  datatype VerifyResult = VerifyResult(redirect: Redirect, users: map<UserId, Attributes>)

  /** The users after `userId`'s code and expiry attributes are removed. */
  function ClearedFor(users: map<UserId, Attributes>, userId: UserId, codeAttribute: string): map<UserId, Attributes>
    requires userId in users
  {
    users[userId := ClearUserCode(users[userId], codeAttribute)]
  }

  /** Both the code and its expiry are stored on the user. */
  predicate HasStoredCode(attrs: Attributes, codeAttribute: string)
  {
    FirstAttribute(attrs, codeAttribute).Some? && FirstAttribute(attrs, EXPIRES_AT_ATTRIBUTE).Some?
  }

  /** The stored expiry instant, None when it is missing or does not parse. */
  function StoredExpiry(attrs: Attributes): Option<int>
  {
    if FirstAttribute(attrs, EXPIRES_AT_ATTRIBUTE).Some?
    then ParseLong(FirstAttribute(attrs, EXPIRES_AT_ATTRIBUTE).value)
    else None
  }

  /**
   * When a code is accepted: both parameters given and not blank, the user
   * known, a stored code equal to the submitted one, and a stored expiry that
   * parses and is not before `now`.
   */
  predicate CodeAccepted(
    users: map<UserId, Attributes>, codeAttribute: string,
    userId: Option<string>, code: Option<string>, now: int)
  {
    && !NullOrBlank(userId) && !NullOrBlank(code)
    && userId.value in users
    && FirstAttribute(users[userId.value], codeAttribute) == code
    && StoredExpiry(users[userId.value]).Some?
    && now <= StoredExpiry(users[userId.value]).value
  }

  /** The decision and the attribute changes of `verify`, for the clock reading `now`. */
  function VerifySpec(
    users: map<UserId, Attributes>, codeAttribute: string,
    userId: Option<string>, code: Option<string>, now: int): (r: VerifyResult)
    // Success exactly when the code is accepted, and then the code is consumed.
    ensures r.redirect.SuccessRedirect? <==> CodeAccepted(users, codeAttribute, userId, code, now)
    ensures r.redirect.SuccessRedirect? ==> r.users == ClearedFor(users, userId.value, codeAttribute)
    // Nothing but the named user's code and expiry attributes can change.
    ensures r.users == users
            || (userId.Some? && userId.value in users && r.users == ClearedFor(users, userId.value, codeAttribute))
    // Missing or blank parameters: rejected without looking anything up.
    ensures NullOrBlank(userId) || NullOrBlank(code) ==>
              r == VerifyResult(ErrorRedirect(MSG_INVALID_PARAMETERS), users)
    // Unknown user, or no stored code or expiry: rejected with nothing changed.
    ensures !NullOrBlank(userId) && !NullOrBlank(code) && userId.value !in users ==>
              r == VerifyResult(ErrorRedirect(MSG_USER_NOT_FOUND), users)
    ensures !NullOrBlank(userId) && !NullOrBlank(code) && userId.value in users
            && !HasStoredCode(users[userId.value], codeAttribute) ==>
              r == VerifyResult(ErrorRedirect(MSG_CODE_NOT_FOUND), users)
    // An unreadable expiry, or one that has passed, clears the code whatever code was submitted.
    ensures !NullOrBlank(userId) && !NullOrBlank(code) && userId.value in users
            && HasStoredCode(users[userId.value], codeAttribute)
            && StoredExpiry(users[userId.value]).None? ==>
              r == VerifyResult(ErrorRedirect(MSG_INVALID_DATA), ClearedFor(users, userId.value, codeAttribute))
    ensures !NullOrBlank(userId) && !NullOrBlank(code) && userId.value in users
            && HasStoredCode(users[userId.value], codeAttribute)
            && StoredExpiry(users[userId.value]).Some? && now > StoredExpiry(users[userId.value]).value ==>
              r == VerifyResult(ErrorRedirect(MSG_CODE_EXPIRED), ClearedFor(users, userId.value, codeAttribute))
    // A wrong code on a live entry is rejected and the entry kept.
    ensures r.redirect == ErrorRedirect(MSG_INVALID_CODE) <==>
              && !NullOrBlank(userId) && !NullOrBlank(code) && userId.value in users
              && HasStoredCode(users[userId.value], codeAttribute)
              && StoredExpiry(users[userId.value]).Some? && now <= StoredExpiry(users[userId.value]).value
              && FirstAttribute(users[userId.value], codeAttribute) != code
    ensures r.redirect == ErrorRedirect(MSG_INVALID_CODE) ==> r.users == users
  {
    if NullOrBlank(userId) || NullOrBlank(code) then
      VerifyResult(ErrorRedirect(MSG_INVALID_PARAMETERS), users)
    else if userId.value !in users then
      VerifyResult(ErrorRedirect(MSG_USER_NOT_FOUND), users)
    else
      var attrs := users[userId.value];
      var storedCode := FirstAttribute(attrs, codeAttribute);
      var expiresAtStr := FirstAttribute(attrs, EXPIRES_AT_ATTRIBUTE);
      if storedCode.None? || expiresAtStr.None? then
        VerifyResult(ErrorRedirect(MSG_CODE_NOT_FOUND), users)
      else
        var cleared := ClearedFor(users, userId.value, codeAttribute);
        match ParseLong(expiresAtStr.value)
        case None => VerifyResult(ErrorRedirect(MSG_INVALID_DATA), cleared)
        case Some(expiresAt) =>
          if now > expiresAt then
            VerifyResult(ErrorRedirect(MSG_CODE_EXPIRED), cleared)
          else if storedCode.value != code.value then
            VerifyResult(ErrorRedirect(MSG_INVALID_CODE), users)
          else
            VerifyResult(SuccessRedirect, cleared)
  }

  /**
   * Expiry is checked before the code: on an entry whose expiry has passed,
   * any submitted code, right or wrong, clears the entry and is rejected as
   * expired.
   */
  lemma ExpiredBeforeCodeCompare(
    users: map<UserId, Attributes>, codeAttribute: string,
    userId: UserId, code: string, now: int, expiresAt: int)
    requires !IsBlank(userId) && !IsBlank(code) && userId in users && IsLong(expiresAt)
    requires FirstAttribute(users[userId], codeAttribute).Some?
    requires FirstAttribute(users[userId], EXPIRES_AT_ATTRIBUTE) == Some(FormatLong(expiresAt))
    requires now > expiresAt
    ensures VerifySpec(users, codeAttribute, Some(userId), Some(code), now)
         == VerifyResult(ErrorRedirect(MSG_CODE_EXPIRED), ClearedFor(users, userId, codeAttribute))
  {
    ParseFormatRoundTrip(expiresAt);
  }

  /**
   * The expiry instant itself is still valid: a matching code presented at
   * exactly the stored instant succeeds, and one millisecond later it is
   * expired.
   */
  lemma ExpiryBoundary(
    users: map<UserId, Attributes>, codeAttribute: string,
    userId: UserId, code: string, expiresAt: int)
    requires !IsBlank(userId) && !IsBlank(code) && userId in users && IsLong(expiresAt)
    requires FirstAttribute(users[userId], codeAttribute) == Some(code)
    requires FirstAttribute(users[userId], EXPIRES_AT_ATTRIBUTE) == Some(FormatLong(expiresAt))
    ensures VerifySpec(users, codeAttribute, Some(userId), Some(code), expiresAt).redirect == SuccessRedirect
    ensures VerifySpec(users, codeAttribute, Some(userId), Some(code), expiresAt + 1).redirect
         == ErrorRedirect(MSG_CODE_EXPIRED)
  {
    ParseFormatRoundTrip(expiresAt);
  }

  /**
   * A code works once: after a successful `verify`, any further `verify` for
   * the same user, with any code at any time, finds no stored code.
   */
  lemma VerifySingleUse(
    users: map<UserId, Attributes>, codeAttribute: string,
    userId: Option<string>, code: Option<string>, now: int,
    code2: Option<string>, now2: int)
    requires VerifySpec(users, codeAttribute, userId, code, now).redirect == SuccessRedirect
    requires !NullOrBlank(code2)
    ensures (var after := VerifySpec(users, codeAttribute, userId, code, now).users;
             VerifySpec(after, codeAttribute, userId, code2, now2)
             == VerifyResult(ErrorRedirect(MSG_CODE_NOT_FOUND), after))
  {
  }

  /** A redirect target: the server's base URI, a path below it and the query parameters. */
  datatype Uri = Uri(base: string, path: string, query: seq<(string, string)>)

  const LOGIN_PATH: string := "/protocol/openid-connect/auth"
  const ACCOUNT_PATH: string := "/account"

  function RealmPath(realmName: string): string
  {
    "realms/" + realmName
  }

  /** `buildErrorResponse`: the realm's login endpoint with a magic-link error. */
  function ErrorResponseLocation(baseUri: string, realmName: string, message: string): Uri
  {
    Uri(baseUri, RealmPath(realmName) + LOGIN_PATH,
        [("error", "magic_link_invalid"), ("error_description", message)])
  }

  /** `buildSuccessRedirect`: the realm's account page; the client and user are not used. */
  function SuccessRedirectLocation(
    baseUri: string, realmName: string, clientId: Option<string>, userId: Option<string>): Uri
  {
    Uri(baseUri, RealmPath(realmName) + ACCOUNT_PATH, [("magic_link_success", "true")])
  }

  /**
   * In one realm the error and the success redirects always lead to different
   * pages, and the success redirect is the same whatever client or user it
   * was built for.
   */
  lemma RedirectTargetsDiffer(
    baseUri: string, realmName: string, message: string,
    clientId: Option<string>, userId: Option<string>, clientId2: Option<string>, userId2: Option<string>)
    ensures ErrorResponseLocation(baseUri, realmName, message).path
         != SuccessRedirectLocation(baseUri, realmName, clientId, userId).path
    ensures SuccessRedirectLocation(baseUri, realmName, clientId, userId)
         == SuccessRedirectLocation(baseUri, realmName, clientId2, userId2)
  {
  }

  class MagicLinkResourceProvider {
    const baseUri: string
    const realmName: string
    /** The attribute name the authenticator stores the one-time code under. */
    const codeAttribute: string
    /** The realm's users, each with its attributes. */
    var users: map<UserId, Attributes>

    constructor (baseUri: string, realmName: string, codeAttribute: string, users: map<UserId, Attributes>)
      ensures this.baseUri == baseUri && this.realmName == realmName
      ensures this.codeAttribute == codeAttribute && this.users == users
    {
      this.baseUri := baseUri;
      this.realmName := realmName;
      this.codeAttribute := codeAttribute;
      this.users := users;
    }

    /** The location a `verify` response redirects to. */
    function Location(redirect: Redirect, client: Option<string>, userId: Option<string>): (u: Uri)
      ensures u.base == baseUri
      ensures redirect.ErrorRedirect? ==>
                && u.path == RealmPath(realmName) + LOGIN_PATH
                && ("error", "magic_link_invalid") in u.query
                && ("error_description", redirect.message) in u.query
      ensures redirect.SuccessRedirect? ==>
                && u.path == RealmPath(realmName) + ACCOUNT_PATH
                && u.query == [("magic_link_success", "true")]
    {
      match redirect
      case ErrorRedirect(message) => ErrorResponseLocation(baseUri, realmName, message)
      case SuccessRedirect => SuccessRedirectLocation(baseUri, realmName, client, userId)
    }

    /** Removes `user`'s code and expiry attributes. */
    method ClearUserCodeOf(user: UserId)
      requires user in users
      modifies this
      ensures users == ClearedFor(old(users), user, codeAttribute)
    {
      var attrs := users[user];
      attrs := RemoveAttribute(attrs, codeAttribute);
      attrs := RemoveAttribute(attrs, EXPIRES_AT_ATTRIBUTE);
      users := users[user := attrs];
    }

    /** The `verify` endpoint, with the clock reading `now` in epoch milliseconds. */
    method Verify(userId: Option<string>, code: Option<string>, client: Option<string>, now: int)
      returns (redirect: Redirect)
      modifies this
      ensures VerifyResult(redirect, users) == VerifySpec(old(users), codeAttribute, userId, code, now)
    {
      if NullOrBlank(userId) || NullOrBlank(code) {
        return ErrorRedirect(MSG_INVALID_PARAMETERS);
      }

      if userId.value !in users {
        return ErrorRedirect(MSG_USER_NOT_FOUND);
      }
      var user := userId.value;

      var storedCode := FirstAttribute(users[user], codeAttribute);
      var expiresAtStr := FirstAttribute(users[user], EXPIRES_AT_ATTRIBUTE);
      if storedCode.None? || expiresAtStr.None? {
        return ErrorRedirect(MSG_CODE_NOT_FOUND);
      }

      var expiresAt := ParseLong(expiresAtStr.value);
      if expiresAt.None? {
        ClearUserCodeOf(user);
        return ErrorRedirect(MSG_INVALID_DATA);
      }
      if now > expiresAt.value {
        ClearUserCodeOf(user);
        return ErrorRedirect(MSG_CODE_EXPIRED);
      }

      if storedCode.value != code.value {
        return ErrorRedirect(MSG_INVALID_CODE);
      }

      ClearUserCodeOf(user);
      redirect := SuccessRedirect;
    }
  }
}
