/**
 * Redemption of a magic-link action token: creating a fresh authentication
 * session that carries the token's OAuth2/OIDC parameters, then resolving the
 * user, marking the email verified and checking the redirect URI before the
 * host's required-action flow takes over.
 */
module ActionTokenHandler {
  import opened Options
  import opened ActionToken

  type UserId = string

  /** OIDC request parameter names, used as client-note keys. */
  const REDIRECT_URI_PARAM: string := "redirect_uri"
  const RESPONSE_TYPE_PARAM: string := "response_type"
  const SCOPE_PARAM: string := "scope"
  const STATE_PARAM: string := "state"
  const NONCE_PARAM: string := "nonce"
  const CODE_CHALLENGE_PARAM: string := "code_challenge"
  const CODE_CHALLENGE_METHOD_PARAM: string := "code_challenge_method"
  const RESPONSE_MODE_PARAM: string := "response_mode"

  /** The auth note telling the host to redirect once required actions are done. */
  const SET_REDIRECT_URI_AFTER_REQUIRED_ACTIONS: string := "SET_REDIRECT_URI_AFTER_REQUIRED_ACTIONS"

  /** The client note a token parameter is copied to. */
  function NoteKey(p: Param): string
  {
    match p
    case RedirectUri => REDIRECT_URI_PARAM
    case Scope => SCOPE_PARAM
    case State => STATE_PARAM
    case Nonce => NONCE_PARAM
    case CodeChallenge => CODE_CHALLENGE_PARAM
    case CodeChallengeMethod => CODE_CHALLENGE_METHOD_PARAM
    case ResponseMode => RESPONSE_MODE_PARAM
  }

  /**
   * The host's redirect-URI check: given the requested URI and the session's
   * client, the URI to use, or None when the client does not allow it.
   */
  type RedirectVerifier = (string, Option<string>) -> Option<string>

  /** An authentication session's state as a value. */
  datatype SessionState = SessionState(
    client: Option<string>,
    redirectUri: Option<string>,
    clientNotes: map<string, string>,
    authNotes: map<string, string>,
    authenticatedUser: Option<UserId>)

  class AuthenticationSession {
    const client: Option<string>
    var redirectUri: Option<string>
    var clientNotes: map<string, string>
    var authNotes: map<string, string>
    var authenticatedUser: Option<UserId>

    function State(): SessionState
      reads this
    {
      SessionState(client, redirectUri, clientNotes, authNotes, authenticatedUser)
    }

    /** A new session for `client`, with no notes, no redirect URI and no user. */
    constructor ForClient(client: Option<string>)
      ensures State() == SessionState(client, None, map[], map[], None)
    {
      this.client := client;
      redirectUri := None;
      clientNotes := map[];
      authNotes := map[];
      authenticatedUser := None;
    }

    method SetRedirectUri(uri: string)
      modifies this
      ensures State() == old(State()).(redirectUri := Some(uri))
    {
      redirectUri := Some(uri);
    }

    method SetClientNote(name: string, value: string)
      modifies this
      ensures State() == old(State()).(clientNotes := old(clientNotes)[name := value])
    {
      clientNotes := clientNotes[name := value];
    }

    method SetAuthNote(name: string, value: string)
      modifies this
      ensures State() == old(State()).(authNotes := old(authNotes)[name := value])
    {
      authNotes := authNotes[name := value];
    }

    method SetAuthenticatedUser(user: UserId)
      modifies this
      ensures State() == old(State()).(authenticatedUser := Some(user))
    {
      authenticatedUser := Some(user);
    }
  }

  /** The realm's users and which of them have a verified email address. */
  class UserStore {
    const users: set<UserId>
    var emailVerified: set<UserId>

    constructor (users: set<UserId>, emailVerified: set<UserId>)
      ensures this.users == users && this.emailVerified == emailVerified
    {
      this.users := users;
      this.emailVerified := emailVerified;
    }

    method SetEmailVerified(user: UserId)
      modifies this
      ensures emailVerified == old(emailVerified) + {user}
    {
      emailVerified := emailVerified + {user};
    }
  }

  /** Lookup by id; a null id finds nobody. */
  function GetUserById(users: set<UserId>, id: Option<UserId>): (r: Option<UserId>)
  {
    if id.Some? && id.value in users then id else None
  }

  /** The client notes of a fresh session, as copied from the token's parameters. */
  function FreshClientNotes(params: OidcParams): map<string, string>
  {
    var m := Put(map[], REDIRECT_URI_PARAM, params.redirectUri);
    var m := m[RESPONSE_TYPE_PARAM := "code"];
    var m := Put(m, SCOPE_PARAM, params.scope);
    var m := Put(m, STATE_PARAM, params.state);
    var m := Put(m, NONCE_PARAM, params.nonce);
    var m := Put(m, CODE_CHALLENGE_PARAM, params.codeChallenge);
    var m := Put(m, CODE_CHALLENGE_METHOD_PARAM, params.codeChallengeMethod);
    Put(m, RESPONSE_MODE_PARAM, params.responseMode)
  }

  /**
   * `response_type` is always `code`; every other note exists exactly when
   * the token holds that parameter and carries its value unchanged; no other
   * note is set.
   */
  lemma FreshClientNotesContents(params: OidcParams)
    ensures Lookup(FreshClientNotes(params), RESPONSE_TYPE_PARAM) == Some("code")
    ensures forall p :: Lookup(FreshClientNotes(params), NoteKey(p)) == params.Get(p)
    ensures forall k :: k in FreshClientNotes(params) ==>
              k == RESPONSE_TYPE_PARAM || exists p :: k == NoteKey(p)
  {
    var notes := FreshClientNotes(params);
    forall p ensures Lookup(notes, NoteKey(p)) == params.Get(p) {
      match p
      case RedirectUri =>
      case Scope =>
      case State =>
      case Nonce =>
      case CodeChallenge =>
      case CodeChallengeMethod =>
      case ResponseMode =>
    }
    forall k | k in notes ensures k == RESPONSE_TYPE_PARAM || exists p :: k == NoteKey(p) {
      if k == REDIRECT_URI_PARAM { assert k == NoteKey(RedirectUri); }
      else if k == SCOPE_PARAM { assert k == NoteKey(Scope); }
      else if k == STATE_PARAM { assert k == NoteKey(State); }
      else if k == NONCE_PARAM { assert k == NoteKey(Nonce); }
      else if k == CODE_CHALLENGE_PARAM { assert k == NoteKey(CodeChallenge); }
      else if k == CODE_CHALLENGE_METHOD_PARAM { assert k == NoteKey(CodeChallengeMethod); }
      else if k == RESPONSE_MODE_PARAM { assert k == NoteKey(ResponseMode); }
    }
  }

  /** The session `startFreshAuthenticationSession` builds for a token. */
  function FreshSessionState(token: TokenSnapshot): SessionState
  {
    SessionState(token.issuedFor, token.params.redirectUri, FreshClientNotes(token.params), map[], None)
  }

  /**
   * Creates a session for the client the token was issued for and copies
   * each present parameter of the token onto it.
   */
  method StartFreshAuthenticationSession(token: EmailMagicLinkActionToken)
    returns (session: AuthenticationSession)
    ensures fresh(session)
    ensures session.State() == FreshSessionState(token.Snapshot())
  {
    session := new AuthenticationSession.ForClient(token.GetIssuedFor());
    // The expected client notes after each step of the copy.
    ghost var p := token.Params();
    ghost var n0 := Put(map[], REDIRECT_URI_PARAM, p.redirectUri);
    ghost var n1 := n0[RESPONSE_TYPE_PARAM := "code"];
    ghost var n2 := Put(n1, SCOPE_PARAM, p.scope);
    ghost var n3 := Put(n2, STATE_PARAM, p.state);
    ghost var n4 := Put(n3, NONCE_PARAM, p.nonce);
    ghost var n5 := Put(n4, CODE_CHALLENGE_PARAM, p.codeChallenge);
    ghost var n6 := Put(n5, CODE_CHALLENGE_METHOD_PARAM, p.codeChallengeMethod);
    ghost var n7 := Put(n6, RESPONSE_MODE_PARAM, p.responseMode);
    assert n7 == FreshClientNotes(p);

    if token.GetRedirectUri().Some? {
      session.SetRedirectUri(token.GetRedirectUri().value);
      session.SetClientNote(REDIRECT_URI_PARAM, token.GetRedirectUri().value);
    }
    assert session.clientNotes == n0;
    session.SetClientNote(RESPONSE_TYPE_PARAM, "code");
    if token.GetScope().Some? {
      session.SetClientNote(SCOPE_PARAM, token.GetScope().value);
    }
    assert session.clientNotes == n2;
    if token.GetState().Some? {
      session.SetClientNote(STATE_PARAM, token.GetState().value);
    }
    assert session.clientNotes == n3;
    if token.GetNonce().Some? {
      session.SetClientNote(NONCE_PARAM, token.GetNonce().value);
    }
    assert session.clientNotes == n4;
    if token.GetCodeChallenge().Some? {
      session.SetClientNote(CODE_CHALLENGE_PARAM, token.GetCodeChallenge().value);
    }
    assert session.clientNotes == n5;
    if token.GetCodeChallengeMethod().Some? {
      session.SetClientNote(CODE_CHALLENGE_METHOD_PARAM, token.GetCodeChallengeMethod().value);
    }
    assert session.clientNotes == n6;
    if token.GetResponseMode().Some? {
      session.SetClientNote(RESPONSE_MODE_PARAM, token.GetResponseMode().value);
    }
    assert session.clientNotes == n7;
  }

  /** The error pages `handleToken` can end on. */
  datatype ErrorKind = InvalidUser | InvalidRedirectUri

  /** What `handleToken` decides, without the session object. */
  datatype Decision = Rejected(kind: ErrorKind) | Proceed

  /** The response of `handleToken`: an error page, or the host's next-step redirect for the session. */
  datatype Outcome = Error(kind: ErrorKind) | Continue(session: AuthenticationSession)
  {
    function Decision(): Decision
    {
      match this
      case Error(kind) => Rejected(kind)
      case Continue(_) => Proceed
    }
  }

  datatype HandleResult = HandleResult(decision: Decision, session: SessionState, emailVerified: set<UserId>)

  /** The user `handleToken` works with: the session's, or else the token subject if it exists. */
  function ResolveUser(tokenUserId: Option<UserId>, s: SessionState, users: set<UserId>): Option<UserId>
  {
    if s.authenticatedUser.Some? then s.authenticatedUser else GetUserById(users, tokenUserId)
  }

  /** Whether the token's redirect URI has to be checked: it has one and the session has none. */
  predicate NeedsRedirectCheck(tokenRedirectUri: Option<string>, s: SessionState)
  {
    tokenRedirectUri.Some? && s.redirectUri.None?
  }

  /** The effect of `handleToken` on the session and on the users' verified emails. */
  function HandleTokenSpec(
    tokenUserId: Option<UserId>,
    tokenRedirectUri: Option<string>,
    s: SessionState,
    users: set<UserId>,
    verified: set<UserId>,
    verifyRedirectUri: RedirectVerifier): (r: HandleResult)
    // An unknown user is rejected before anything changes.
    ensures r.decision == Rejected(InvalidUser) <==>
              s.authenticatedUser.None? && (tokenUserId.None? || tokenUserId.value !in users)
    ensures r.decision == Rejected(InvalidUser) ==> r.session == s && r.emailVerified == verified
    // Past user resolution the user is the session's, and their email is verified, whatever follows.
    ensures r.decision != Rejected(InvalidUser) ==>
              && r.session.authenticatedUser.Some?
              && (s.authenticatedUser.Some? ==> r.session.authenticatedUser == s.authenticatedUser)
              && (s.authenticatedUser.None? ==> r.session.authenticatedUser == tokenUserId)
              && r.emailVerified == verified + {r.session.authenticatedUser.value}
    // The redirect check fails only when it runs and the client rejects the URI.
    ensures r.decision == Rejected(InvalidRedirectUri) <==>
              && r.decision != Rejected(InvalidUser)
              && NeedsRedirectCheck(tokenRedirectUri, s)
              && verifyRedirectUri(tokenRedirectUri.value, s.client).None?
    // A passed check installs the verified URI and asks for the redirect after required actions.
    ensures r.decision == Proceed && NeedsRedirectCheck(tokenRedirectUri, s) ==>
              && r.session.redirectUri == verifyRedirectUri(tokenRedirectUri.value, s.client)
              && r.session.authNotes == s.authNotes[SET_REDIRECT_URI_AFTER_REQUIRED_ACTIONS := "true"]
    // Otherwise the redirect URI and the auth notes stay as they were.
    ensures !(r.decision == Proceed && NeedsRedirectCheck(tokenRedirectUri, s)) ==>
              r.session.redirectUri == s.redirectUri && r.session.authNotes == s.authNotes
    // Client and client notes are never touched.
    ensures r.session.client == s.client && r.session.clientNotes == s.clientNotes
  {
    var user := ResolveUser(tokenUserId, s, users);
    if user.None? then
      HandleResult(Rejected(InvalidUser), s, verified)
    else
      var s1 := s.(authenticatedUser := user);
      var verified1 := verified + {user.value};
      if NeedsRedirectCheck(tokenRedirectUri, s1) then
        var redirect := verifyRedirectUri(tokenRedirectUri.value, s1.client);
        if redirect.None? then
          HandleResult(Rejected(InvalidRedirectUri), s1, verified1)
        else
          var s2 := s1.(redirectUri := redirect,
                        authNotes := s1.authNotes[SET_REDIRECT_URI_AFTER_REQUIRED_ACTIONS := "true"]);
          HandleResult(Proceed, s2, verified1)
      else
        HandleResult(Proceed, s1, verified1)
  }

  /**
   * Resolves the user (failing with INVALID_USER when unknown), marks the
   * email verified, and when the session has no redirect URI checks the
   * token's against the client (failing with INVALID_REDIRECT_URI).
   */
  method HandleToken(
    token: EmailMagicLinkActionToken,
    session: AuthenticationSession,
    store: UserStore,
    verifyRedirectUri: RedirectVerifier)
    returns (outcome: Outcome)
    modifies session, store
    ensures outcome.Continue? ==> outcome.session == session
    ensures HandleResult(outcome.Decision(), session.State(), store.emailVerified)
         == HandleTokenSpec(token.GetUserId(), token.GetRedirectUri(), old(session.State()),
                            store.users, old(store.emailVerified), verifyRedirectUri)
  {
    var user := session.authenticatedUser;
    if user.None? {
      user := GetUserById(store.users, token.GetUserId());
      if user.None? {
        return Error(InvalidUser);
      }
      session.SetAuthenticatedUser(user.value);
    }

    store.SetEmailVerified(user.value);

    if token.GetRedirectUri().Some? && session.redirectUri.None? {
      var redirect := verifyRedirectUri(token.GetRedirectUri().value, session.client);
      if redirect.None? {
        return Error(InvalidRedirectUri);
      }
      session.SetRedirectUri(redirect.value);
      session.SetAuthNote(SET_REDIRECT_URI_AFTER_REQUIRED_ACTIONS, "true");
    }

    outcome := Continue(session);
  }

  /**
   * On a session just built by `StartFreshAuthenticationSession` the redirect
   * URI is already the token's, so `handleToken` never runs the redirect check
   * there and never fails with INVALID_REDIRECT_URI.
   */
  lemma FreshSessionSkipsRedirectCheck(
    token: TokenSnapshot, users: set<UserId>, verified: set<UserId>, verifyRedirectUri: RedirectVerifier)
    ensures var r := HandleTokenSpec(token.userId, token.params.redirectUri, FreshSessionState(token),
                                     users, verified, verifyRedirectUri);
            && r.decision != Rejected(InvalidRedirectUri)
            && r.session.redirectUri == token.params.redirectUri
  {
  }
}
