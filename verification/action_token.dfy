/**
 * The payload of an emailed magic link: an action token naming the user and
 * the client it was issued for, and carrying the seven OAuth2/OIDC request
 * parameters (redirect URI, scope, state, nonce, the PKCE code challenge and
 * its method from section 4.3 of RFC 7636, and the response mode) that the
 * redemption handler re-applies to the authentication session.
 */
module ActionToken {
  import opened Options

  /** The type discriminator this token kind is registered under. */
  const TOKEN_TYPE: string := "email-magic-link"

  /** Short JSON property names that keep the serialized token small. */
  const JSON_FIELD_REDIRECT_URI: string := "rdu"
  const JSON_FIELD_SCOPE: string := "scope"
  const JSON_FIELD_STATE: string := "state"
  const JSON_FIELD_NONCE: string := "nonce"
  const JSON_FIELD_CODE_CHALLENGE: string := "cc"
  const JSON_FIELD_CODE_CHALLENGE_METHOD: string := "ccm"
  const JSON_FIELD_RESPONSE_MODE: string := "rm"

  /** Java's `int`, the type of the absolute expiration argument. */
  newtype int32 = x: int | -0x8000_0000 <= x < 0x8000_0000

  /** Names for the seven optional OAuth2/OIDC parameters of the token. */
  datatype Param =
    | RedirectUri | Scope | State | Nonce | CodeChallenge | CodeChallengeMethod | ResponseMode

  /** The seven optional parameters; None stands for Java's null. */
  datatype OidcParams = OidcParams(
    redirectUri: Option<string>,
    scope: Option<string>,
    state: Option<string>,
    nonce: Option<string>,
    codeChallenge: Option<string>,
    codeChallengeMethod: Option<string>,
    responseMode: Option<string>)
  {
    function Get(p: Param): Option<string>
    {
      match p
      case RedirectUri => redirectUri
      case Scope => scope
      case State => state
      case Nonce => nonce
      case CodeChallenge => codeChallenge
      case CodeChallengeMethod => codeChallengeMethod
      case ResponseMode => responseMode
    }
  }

  /** Every parameter absent. */
  const NO_PARAMS: OidcParams := OidcParams(None, None, None, None, None, None, None)

  /** The JSON property a parameter is serialized under. */
  function JsonKey(p: Param): string
  {
    match p
    case RedirectUri => JSON_FIELD_REDIRECT_URI
    case Scope => JSON_FIELD_SCOPE
    case State => JSON_FIELD_STATE
    case Nonce => JSON_FIELD_NONCE
    case CodeChallenge => JSON_FIELD_CODE_CHALLENGE
    case CodeChallengeMethod => JSON_FIELD_CODE_CHALLENGE_METHOD
    case ResponseMode => JSON_FIELD_RESPONSE_MODE
  }

  /** No two parameters share a JSON property name. */
  lemma JsonKeyInjective(p: Param, q: Param)
    ensures JsonKey(p) == JsonKey(q) ==> p == q
  {
  }

  /** Java's `map.put(key, v)` when v is present; nothing when it is null. */
  function Put(m: map<string, string>, key: string, v: Option<string>): (r: map<string, string>)
    ensures Lookup(r, key) == if v.Some? then v else Lookup(m, key)
    ensures forall k :: k != key ==> Lookup(r, k) == Lookup(m, k)
    ensures r.Keys <= m.Keys + {key}
  {
    if v.Some? then m[key := v.value] else m
  }

  function Lookup(m: map<string, string>, key: string): Option<string>
  {
    if key in m then Some(m[key]) else None
  }

  /**
   * The JSON properties of the seven parameters: a present parameter is
   * written under its key, an absent one is not written.
   */
  function Encode(params: OidcParams): map<string, string>
  {
    var m := Put(map[], JSON_FIELD_REDIRECT_URI, params.redirectUri);
    var m := Put(m, JSON_FIELD_SCOPE, params.scope);
    var m := Put(m, JSON_FIELD_STATE, params.state);
    var m := Put(m, JSON_FIELD_NONCE, params.nonce);
    var m := Put(m, JSON_FIELD_CODE_CHALLENGE, params.codeChallenge);
    var m := Put(m, JSON_FIELD_CODE_CHALLENGE_METHOD, params.codeChallengeMethod);
    Put(m, JSON_FIELD_RESPONSE_MODE, params.responseMode)
  }

  /**
   * Each parameter is found under its own key exactly when it is present,
   * with its value unchanged, and nothing else is written.
   */
  lemma EncodeContents(params: OidcParams)
    ensures forall p :: Lookup(Encode(params), JsonKey(p)) == params.Get(p)
    ensures forall k :: k in Encode(params) ==> exists p :: k == JsonKey(p)
  {
    forall p ensures Lookup(Encode(params), JsonKey(p)) == params.Get(p) {
      match p
      case RedirectUri =>
      case Scope =>
      case State =>
      case Nonce =>
      case CodeChallenge =>
      case CodeChallengeMethod =>
      case ResponseMode =>
    }
    forall k | k in Encode(params) ensures exists p :: k == JsonKey(p) {
      if k == JSON_FIELD_REDIRECT_URI { assert k == JsonKey(RedirectUri); }
      else if k == JSON_FIELD_SCOPE { assert k == JsonKey(Scope); }
      else if k == JSON_FIELD_STATE { assert k == JsonKey(State); }
      else if k == JSON_FIELD_NONCE { assert k == JsonKey(Nonce); }
      else if k == JSON_FIELD_CODE_CHALLENGE { assert k == JsonKey(CodeChallenge); }
      else if k == JSON_FIELD_CODE_CHALLENGE_METHOD { assert k == JsonKey(CodeChallengeMethod); }
      else { assert k == JsonKey(ResponseMode); }
    }
  }

  /** Reads each parameter back from its JSON property; a missing property is null. */
  function Decode(m: map<string, string>): OidcParams
  {
    OidcParams(
      Lookup(m, JSON_FIELD_REDIRECT_URI),
      Lookup(m, JSON_FIELD_SCOPE),
      Lookup(m, JSON_FIELD_STATE),
      Lookup(m, JSON_FIELD_NONCE),
      Lookup(m, JSON_FIELD_CODE_CHALLENGE),
      Lookup(m, JSON_FIELD_CODE_CHALLENGE_METHOD),
      Lookup(m, JSON_FIELD_RESPONSE_MODE))
  }

  /** Decoding by key recovers every parameter, present or absent. */
  lemma DecodeEncode(params: OidcParams)
    ensures Decode(Encode(params)) == params
  {
  }

  /** Two different parameter sets never serialize alike. */
  lemma EncodeInjective(a: OidcParams, b: OidcParams)
    ensures Encode(a) == Encode(b) ==> a == b
  {
    if Encode(a) == Encode(b) {
      DecodeEncode(a);
      DecodeEncode(b);
    }
  }

  /** Everything the token holds, inherited claims included, as one value. */
  datatype TokenSnapshot = TokenSnapshot(
    userId: Option<string>,
    tokenType: Option<string>,
    expiration: Option<int32>,
    issuedFor: Option<string>,
    params: OidcParams)

  class EmailMagicLinkActionToken {
    // Claims inherited from the host's action-token base class.
    var userId: Option<string>
    var tokenType: Option<string>
    var expiration: Option<int32>
    var issuedFor: Option<string>

    var redirectUri: Option<string>
    var scope: Option<string>
    var state: Option<string>
    var nonce: Option<string>
    var codeChallenge: Option<string>
    var codeChallengeMethod: Option<string>
    var responseMode: Option<string>

    function Params(): OidcParams
      reads this
    {
      OidcParams(redirectUri, scope, state, nonce, codeChallenge, codeChallengeMethod, responseMode)
    }

    function Snapshot(): TokenSnapshot
      reads this
    {
      TokenSnapshot(userId, tokenType, expiration, issuedFor, Params())
    }

    /**
     * The full constructor. Note that `nonce` comes before `state` in the
     * parameter list; each still lands in its own field.
     */
    constructor (
      userId: Option<string>,
      absoluteExpirationInSecs: int32,
      clientId: Option<string>,
      redirectUri: Option<string>,
      scope: Option<string>,
      nonce: Option<string>,
      state: Option<string>,
      codeChallenge: Option<string>,
      codeChallengeMethod: Option<string>,
      responseMode: Option<string>)
      ensures GetUserId() == userId
      ensures GetTokenType() == Some(TOKEN_TYPE)
      ensures expiration == Some(absoluteExpirationInSecs)
      ensures GetIssuedFor() == clientId
      ensures GetRedirectUri() == redirectUri
      ensures GetScope() == scope
      ensures GetState() == state
      ensures GetNonce() == nonce
      ensures GetCodeChallenge() == codeChallenge
      ensures GetCodeChallengeMethod() == codeChallengeMethod
      ensures GetResponseMode() == responseMode
    {
      this.userId := userId;
      this.tokenType := Some(TOKEN_TYPE);
      this.expiration := Some(absoluteExpirationInSecs);
      this.issuedFor := clientId;
      this.redirectUri := redirectUri;
      this.scope := scope;
      this.nonce := nonce;
      this.state := state;
      this.codeChallenge := codeChallenge;
      this.codeChallengeMethod := codeChallengeMethod;
      this.responseMode := responseMode;
    }

    /** The no-argument constructor used by deserialization. */
    constructor Empty()
      ensures Params() == NO_PARAMS
    {
      userId, tokenType, expiration, issuedFor := None, None, None, None;
      redirectUri, scope, state, nonce := None, None, None, None;
      codeChallenge, codeChallengeMethod, responseMode := None, None, None;
    }

    function GetUserId(): Option<string> reads this { userId }
    function GetTokenType(): Option<string> reads this { tokenType }
    function GetIssuedFor(): Option<string> reads this { issuedFor }

    function GetRedirectUri(): Option<string> reads this { redirectUri }
    function GetScope(): Option<string> reads this { scope }
    function GetState(): Option<string> reads this { state }
    function GetNonce(): Option<string> reads this { nonce }
    function GetCodeChallenge(): Option<string> reads this { codeChallenge }
    function GetCodeChallengeMethod(): Option<string> reads this { codeChallengeMethod }
    function GetResponseMode(): Option<string> reads this { responseMode }

    method SetRedirectUri(v: Option<string>)
      modifies this
      ensures Snapshot() == old(Snapshot()).(params := old(Params()).(redirectUri := v))
    {
      redirectUri := v;
    }

    method SetScope(v: Option<string>)
      modifies this
      ensures Snapshot() == old(Snapshot()).(params := old(Params()).(scope := v))
    {
      scope := v;
    }

    method SetState(v: Option<string>)
      modifies this
      ensures Snapshot() == old(Snapshot()).(params := old(Params()).(state := v))
    {
      state := v;
    }

    method SetNonce(v: Option<string>)
      modifies this
      ensures Snapshot() == old(Snapshot()).(params := old(Params()).(nonce := v))
    {
      nonce := v;
    }

    method SetCodeChallenge(v: Option<string>)
      modifies this
      ensures Snapshot() == old(Snapshot()).(params := old(Params()).(codeChallenge := v))
    {
      codeChallenge := v;
    }

    method SetCodeChallengeMethod(v: Option<string>)
      modifies this
      ensures Snapshot() == old(Snapshot()).(params := old(Params()).(codeChallengeMethod := v))
    {
      codeChallengeMethod := v;
    }

    method SetResponseMode(v: Option<string>)
      modifies this
      ensures Snapshot() == old(Snapshot()).(params := old(Params()).(responseMode := v))
    {
      responseMode := v;
    }
  }
}
