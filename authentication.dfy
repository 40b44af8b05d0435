/** The login state of a client: the credentials it was last given and the
    tokens it last obtained, and how `login`, `respond_to_challenge` and
    `get_refresh_token` read and overwrite them. The OAuth and session
    endpoints the client calls are abstract services. */
module Authentication {
  import opened Wrappers
  import opened AuthErrors
  import ApiErrors
  import OperatingSystem

  datatype Credentials =
    | User(username: string, password: string)
    | RefreshToken(token: string)

  /** The expiry is in seconds since the Unix epoch. */
  datatype Tokens = Tokens(accessToken: string, expiresAt: int, refreshToken: string)

  /** The expiry of a default date-time value: the Unix epoch itself. */
  const Epoch: int := 0

  /** The tokens a refresh-token login asks the OAuth endpoint to refresh:
      no access token, already expired, and the given refresh token. */
  function SeedTokens(refreshToken: string): (t: Tokens)
    ensures t.accessToken == "" && t.expiresAt == Epoch && t.refreshToken == refreshToken
  {
    Tokens("", Epoch, refreshToken)
  }

  /** What the client's collaborators answer:
      - `passwordLogin(username, password, systemId)`, the OAuth password grant;
      - `refreshTokens(tokens)`, the OAuth refresh grant;
      - `respondToChallenge(username, password, systemId, code)`, the password
        grant with a two-factor code;
      - `ensureFresh(tokens)`, the tokens to use from now on, refreshed if stale;
      - `setSession(displayName, systemId, tokens)`, the session registration. */
  datatype Services = Services(
    passwordLogin: (string, string, string) -> Result<Tokens, AuthenticationError>,
    refreshTokens: Tokens -> Result<Tokens, AuthenticationError>,
    respondToChallenge: (string, string, string, string) -> Result<Tokens, AuthenticationError>,
    ensureFresh: Tokens -> Result<Tokens, AuthenticationError>,
    setSession: (string, string, Tokens) -> Result<(), ApiErrors.ApiError>)

  /** A request the client makes to one of its collaborators. */
  datatype Call =
    | PasswordLogin(username: string, password: string, systemId: string)
    | TokenRefresh(seed: Tokens)
    | ChallengeResponse(username: string, password: string, systemId: string, code: string)
    | FreshnessCheck(stored: Tokens)
    | SetSession(displayName: string, systemId: string, tokens: Tokens)

  /** The name and system id the client registers itself with. */
  datatype Identity = Identity(displayName: string, systemId: string)

  /** The client's state after an operation, what the operation returned, and
      the requests it made, in order. */
  datatype Outcome = Outcome(
    user: Option<Credentials>,
    tokens: Option<Tokens>,
    result: Result<(), AuthenticationError>,
    calls: seq<Call>)

  /** The token request a login with these credentials makes. */
  function ExchangeCall(credentials: Credentials, id: Identity): (c: Call)
    ensures credentials.User? ==>
      c == PasswordLogin(credentials.username, credentials.password, id.systemId)
    ensures credentials.RefreshToken? ==> c == TokenRefresh(SeedTokens(credentials.token))
  {
    match credentials
    case User(username, password) => PasswordLogin(username, password, id.systemId)
    case RefreshToken(token) => TokenRefresh(SeedTokens(token))
  }

  /** The answer to a token request. */
  function Answer(c: Call, services: Services): Result<Tokens, AuthenticationError>
    requires c.PasswordLogin? || c.TokenRefresh? || c.ChallengeResponse?
  {
    match c
    case PasswordLogin(username, password, systemId) => services.passwordLogin(username, password, systemId)
    case TokenRefresh(seed) => services.refreshTokens(seed)
    case ChallengeResponse(username, password, systemId, code) =>
      services.respondToChallenge(username, password, systemId, code)
  }

  /** The session registration that follows a successful token request:
      the freshness check on the new tokens, then the registration with
      the tokens that check returns. Any failure is `SessionFailed`. */
  function Registration(obtained: Tokens, id: Identity, services: Services)
    : (r: (Result<(), AuthenticationError>, seq<Call>))
    ensures r.0.Ok? <==> services.ensureFresh(obtained).Ok?
                          && services.setSession(id.displayName, id.systemId, services.ensureFresh(obtained).value).Ok?
    ensures r.0.Err? ==> r.0.error == SessionFailed
    ensures 1 <= |r.1| <= 2 && r.1[0] == FreshnessCheck(obtained)
    ensures |r.1| == 2 <==> services.ensureFresh(obtained).Ok?
    ensures |r.1| == 2 ==>
      r.1[1] == SetSession(id.displayName, id.systemId, services.ensureFresh(obtained).value)
  {
    match services.ensureFresh(obtained)
    case Err(_) => (Err(SessionFailed), [FreshnessCheck(obtained)])
    case Ok(current) =>
      var registered := services.setSession(id.displayName, id.systemId, current);
      (if registered.Ok? then Ok(()) else Err(SessionFailed),
       [FreshnessCheck(obtained), SetSession(id.displayName, id.systemId, current)])
  }

  /** A token request followed, if it succeeds, by the registration: a
      failed request returns its own error and keeps the old tokens; a
      successful one stores the new tokens whatever happens next. */
  function TokenOutcome(user: Option<Credentials>, tokens: Option<Tokens>, request: Call,
                        id: Identity, services: Services): (o: Outcome)
    requires request.PasswordLogin? || request.TokenRefresh? || request.ChallengeResponse?
    ensures o.user == user && |o.calls| >= 1 && o.calls[0] == request
    ensures Answer(request, services).Err? ==>
      o == Outcome(user, tokens, Err(Answer(request, services).error), [request])
    ensures Answer(request, services).Ok? ==>
      && o.tokens == Some(Answer(request, services).value)
      && o.result == Registration(Answer(request, services).value, id, services).0
      && o.calls == [request] + Registration(Answer(request, services).value, id, services).1
  {
    match Answer(request, services)
    case Err(e) => Outcome(user, tokens, Err(e), [request])
    case Ok(issued) =>
      var registration := Registration(issued, id, services);
      Outcome(user, Some(issued), registration.0, [request] + registration.1)
  }

  /** `login`: the credentials are stored first, then exchanged for tokens. */
  function LoginOutcome(user: Option<Credentials>, tokens: Option<Tokens>, credentials: Credentials,
                        id: Identity, services: Services): (o: Outcome)
    ensures o.user == Some(credentials)
    ensures |o.calls| >= 1 && o.calls[0] == ExchangeCall(credentials, id)
  {
    TokenOutcome(Some(credentials), tokens, ExchangeCall(credentials, id), id, services)
  }

  /** `respond_to_challenge`: only a username and password login can answer a
      challenge; with other credentials, or none, nothing happens. */
  function ChallengeOutcome(user: Option<Credentials>, tokens: Option<Tokens>, code: string,
                            id: Identity, services: Services): (o: Outcome)
    ensures o.user == user
    ensures !(user.Some? && user.value.User?) ==> o == Outcome(user, tokens, Ok(()), [])
  {
    match user
    case Some(User(username, password)) =>
      TokenOutcome(user, tokens, ChallengeResponse(username, password, id.systemId, code), id, services)
    case _ => Outcome(user, tokens, Ok(()), [])
  }

  /** `get_refresh_token`: the refresh token of the stored tokens. */
  function StoredRefreshToken(tokens: Option<Tokens>): (r: Option<string>)
    ensures r.Some? <==> tokens.Some?
    ensures r.Some? ==> r.value == tokens.value.refreshToken
  {
    match tokens
    case None => None
    case Some(t) => Some(t.refreshToken)
  }

  /** A failed token exchange returns its error, leaves the tokens as they
      were and registers no session. */
  lemma LoginExchangeFailure(user: Option<Credentials>, tokens: Option<Tokens>, credentials: Credentials,
                             id: Identity, services: Services)
    requires Answer(ExchangeCall(credentials, id), services).Err?
    ensures var o := LoginOutcome(user, tokens, credentials, id, services);
      && o.result == Err(Answer(ExchangeCall(credentials, id), services).error)
      && o.tokens == tokens
      && o.calls == [ExchangeCall(credentials, id)]
      && forall i :: 0 <= i < |o.calls| ==> !o.calls[i].SetSession?
  {
  }

  /** After a successful exchange the new tokens are kept even when the
      freshness check or the registration fails, which is `SessionFailed`. */
  lemma LoginExchangeSuccess(user: Option<Credentials>, tokens: Option<Tokens>, credentials: Credentials,
                             id: Identity, services: Services)
    requires Answer(ExchangeCall(credentials, id), services).Ok?
    ensures var issued := Answer(ExchangeCall(credentials, id), services).value;
      var o := LoginOutcome(user, tokens, credentials, id, services);
      && o.tokens == Some(issued)
      && o.calls[1] == FreshnessCheck(issued)
      && o.result == Registration(issued, id, services).0
      && (o.result.Err? ==> o.result.error == SessionFailed)
  {
  }

  /** `login` succeeds exactly when the exchange, the freshness check and
      the registration all succeed. */
  lemma LoginSucceedsIff(user: Option<Credentials>, tokens: Option<Tokens>, credentials: Credentials,
                         id: Identity, services: Services)
    ensures var exchange := Answer(ExchangeCall(credentials, id), services);
      LoginOutcome(user, tokens, credentials, id, services).result.Ok? <==>
        && exchange.Ok?
        && services.ensureFresh(exchange.value).Ok?
        && services.setSession(id.displayName, id.systemId, services.ensureFresh(exchange.value).value).Ok?
  {
  }

  /** A refresh-token login asks to refresh the seed tokens of that refresh
      token. */
  lemma RefreshLoginSeed(user: Option<Credentials>, tokens: Option<Tokens>, token: string,
                         id: Identity, services: Services)
    ensures LoginOutcome(user, tokens, RefreshToken(token), id, services).calls[0]
         == TokenRefresh(Tokens("", Epoch, token))
  {
  }

  /** With username and password stored, the challenge answer submits them
      with the code and then follows the rules of a login. */
  lemma ChallengeUsesStoredUser(username: string, password: string, tokens: Option<Tokens>, code: string,
                                id: Identity, services: Services)
    ensures var request := ChallengeResponse(username, password, id.systemId, code);
      var o := ChallengeOutcome(Some(User(username, password)), tokens, code, id, services);
      && o.calls[0] == request
      && (Answer(request, services).Err? ==>
            o == Outcome(Some(User(username, password)), tokens, Err(Answer(request, services).error), [request]))
      && (Answer(request, services).Ok? ==>
            o.tokens == Some(Answer(request, services).value)
            && o.result == Registration(Answer(request, services).value, id, services).0
            && (o.result.Err? ==> o.result.error == SessionFailed))
  {
  }

  /** The challenge answer succeeds exactly when username and password are
      stored and the challenge request, the freshness check and the
      registration all succeed. */
  lemma ChallengeSucceedsIff(user: Option<Credentials>, tokens: Option<Tokens>, code: string,
                             id: Identity, services: Services)
    requires user.Some? && user.value.User?
    ensures var answer := services.respondToChallenge(user.value.username, user.value.password, id.systemId, code);
      ChallengeOutcome(user, tokens, code, id, services).result.Ok? <==>
        && answer.Ok?
        && services.ensureFresh(answer.value).Ok?
        && services.setSession(id.displayName, id.systemId, services.ensureFresh(answer.value).value).Ok?
  {
  }

  /** After a refresh-token login the stored refresh token is the one the
      OAuth endpoint answered with; when the refresh fails it is the one
      stored before. So `get_refresh_token` gives back the login's own
      token only when the endpoint echoes it. */
  lemma RefreshLoginRefreshToken(user: Option<Credentials>, tokens: Option<Tokens>, token: string,
                                 id: Identity, services: Services)
    ensures var answer := services.refreshTokens(SeedTokens(token));
      StoredRefreshToken(LoginOutcome(user, tokens, RefreshToken(token), id, services).tokens)
        == if answer.Ok? then Some(answer.value.refreshToken) else StoredRefreshToken(tokens)
  {
  }

  /** An OAuth endpoint that rotates refresh tokens, and otherwise lets
      everything succeed. */
  function RotatingServices(rotated: string): Services
  {
    Services(
      (username, password, systemId) => Err(InvalidCredentials),
      seed => Ok(Tokens("access", Epoch, rotated)),
      (username, password, systemId, code) => Err(InvalidCredentials),
      current => Ok(current),
      (displayName, systemId, current) => Ok(()))
  }

  /** A successful refresh-token login on a fresh client against a rotating
      endpoint, after which the refresh token is not the one logged in with. */
  lemma RotatedRefreshTokenDiffers(id: Identity)
    ensures var o := LoginOutcome(None, None, RefreshToken("first"), id, RotatingServices("second"));
      && o.result == Ok(())
      && StoredRefreshToken(o.tokens) == Some("second")
      && StoredRefreshToken(o.tokens) != Some("first")
  {
    var services := RotatingServices("second");
    assert services.refreshTokens(SeedTokens("first")) == Ok(Tokens("access", Epoch, "second"));
    assert Registration(Tokens("access", Epoch, "second"), id, services).0 == Ok(());
    assert "second" != "first" by { assert "second"[0] != "first"[0]; }
  }

  /** The flow of the documented example: a password login that is met by
      a two-factor challenge keeps the credentials but obtains no tokens;
      answering the challenge then obtains them, and the refresh token
      becomes available. */
  lemma {:induction false} ChallengeCompletesLogin(username: string, password: string, code: string,
                                                   issued: Tokens, id: Identity, services: Services)
    requires services.passwordLogin(username, password, id.systemId) == Err(MfaCodeRequired)
    requires services.respondToChallenge(username, password, id.systemId, code) == Ok(issued)
    requires services.ensureFresh(issued) == Ok(issued)
    requires services.setSession(id.displayName, id.systemId, issued).Ok?
    ensures var first := LoginOutcome(None, None, User(username, password), id, services);
      var second := ChallengeOutcome(first.user, first.tokens, code, id, services);
      && first.result == Err(MfaCodeRequired)
      && first.user == Some(User(username, password)) && first.tokens == None
      && StoredRefreshToken(first.tokens) == None
      && second.result == Ok(())
      && second.tokens == Some(issued)
      && StoredRefreshToken(second.tokens) == Some(issued.refreshToken)
  {
    var first := LoginOutcome(None, None, User(username, password), id, services);
    assert Answer(ExchangeCall(User(username, password), id), services) == Err(MfaCodeRequired);
    var request := ChallengeResponse(username, password, id.systemId, code);
    assert Answer(request, services) == Ok(issued);
    assert Registration(issued, id, services).0 == Ok(());
  }

  /** A client: its identity, its collaborators, and the credentials and
      tokens it holds. `calls` records every request it has made. */
  class Client {
    const identity: Identity
    const operatingSystem: OperatingSystem.Os
    const services: Services
    var user: Option<Credentials>
    var tokens: Option<Tokens>
    ghost var calls: seq<Call>

    /** A new client holds neither credentials nor tokens. */
    constructor (displayName: string, systemId: string, operatingSystem: OperatingSystem.Os, services: Services)
      ensures identity == Identity(displayName, systemId)
      ensures this.operatingSystem == operatingSystem && this.services == services
      ensures user == None && tokens == None && calls == []
    {
      identity := Identity(displayName, systemId);
      this.operatingSystem := operatingSystem;
      this.services := services;
      user := None;
      tokens := None;
      calls := [];
    }

    /** The freshness check and session registration after new tokens. */
    method RegisterSession(obtained: Tokens) returns (r: Result<(), AuthenticationError>)
      modifies this`calls
      ensures r == Registration(obtained, identity, services).0
      ensures calls == old(calls) + Registration(obtained, identity, services).1
    {
      calls := calls + [FreshnessCheck(obtained)];
      var current := services.ensureFresh(obtained);
      if current.Err? {
        return Err(SessionFailed);
      }
      calls := calls + [SetSession(identity.displayName, identity.systemId, current.value)];
      var registered := services.setSession(identity.displayName, identity.systemId, current.value);
      if registered.Err? {
        return Err(SessionFailed);
      }
      return Ok(());
    }

    /** Logs in with a username and password or with a refresh token. */
    method Login(credentials: Credentials) returns (r: Result<(), AuthenticationError>)
      modifies this`user, this`tokens, this`calls
      ensures var o := LoginOutcome(old(user), old(tokens), credentials, identity, services);
        user == o.user && tokens == o.tokens && r == o.result && calls == old(calls) + o.calls
    {
      user := Some(credentials);
      var issued: Result<Tokens, AuthenticationError>;
      match credentials {
        case User(username, password) =>
          calls := calls + [PasswordLogin(username, password, identity.systemId)];
          issued := services.passwordLogin(username, password, identity.systemId);
        case RefreshToken(token) =>
          var seed := Tokens("", Epoch, token);
          calls := calls + [TokenRefresh(seed)];
          issued := services.refreshTokens(seed);
      }
      if issued.Err? {
        return Err(issued.error);
      }
      tokens := Some(issued.value);
      r := RegisterSession(issued.value);
    }

    /** Answers a two-factor challenge with the stored username and password. */
    method RespondToChallenge(code: string) returns (r: Result<(), AuthenticationError>)
      modifies this`tokens, this`calls
      ensures var o := ChallengeOutcome(old(user), old(tokens), code, identity, services);
        user == o.user && tokens == o.tokens && r == o.result && calls == old(calls) + o.calls
    {
      if user.Some? && user.value.User? {
        var username, password := user.value.username, user.value.password;
        calls := calls + [ChallengeResponse(username, password, identity.systemId, code)];
        var issued := services.respondToChallenge(username, password, identity.systemId, code);
        if issued.Err? {
          return Err(issued.error);
        }
        tokens := Some(issued.value);
        r := RegisterSession(issued.value);
      } else {
        r := Ok(());
      }
    }

    /** The refresh token of the stored tokens, if any. */
    method GetRefreshToken() returns (r: Option<string>)
      ensures r.Some? <==> tokens.Some?
      ensures r.Some? ==> r.value == tokens.value.refreshToken
    {
      if tokens.Some? {
        return Some(tokens.value.refreshToken);
      }
      return None;
    }
  }
}
