/** The auth controller (src/services/authService.ts) of the SMART-on-FHIR authorization-code
    flow: launch (`initialize`), callback (`handleCallback` with `exchangeCodeForToken`),
    refresh, and the manual login URL; plus the token store's `getAccessToken`
    (src/stores/authStore.ts), which sits here because it calls the refresh.

    The environment is passed in: the deployment configuration, the page's query parameters,
    the token endpoint as a function from the posted form to its reply, the decoder of a token
    payload, the clock reading `now` and the fresh anti-CSRF state token. Redirects are
    returned as the query parameters of the authorization request. */
module AuthService {
  import opened Common
  import opened Types
  import opened Browser
  import AuthStore
  import PatientStore

  /** Deployment configuration (`import.meta.env`). */
  datatype Config = Config(
    clientId: string,
    scope: string,
    redirectUri: string,
    authUrl: string,
    tokenUrl: string,
    fhirBaseUrl: string,
    launchToken: string)

  // ---------------------------------------------------------------------------
  // Authorization request parameters

  /** The parameters of the launch's authorization request: the audience is the launching
      issuer when one is given (else the configured FHIR base), the launch is the launch token
      when one is given (else the configured one). */
  function AuthorizeParams(config: Config, launchToken: Option<string>, issuer: Option<string>,
                           state: string): map<string, string>
  {
    map["response_type" := "code",
        "client_id" := config.clientId,
        "scope" := config.scope,
        "redirect_uri" := config.redirectUri,
        "state" := state,
        "aud" := OrElse(issuer, config.fhirBaseUrl),
        "launch" := OrElse(launchToken, config.launchToken)]
  }

  /** The parameters of the manual re-login request. */
  function LoginParams(config: Config, state: string): map<string, string> {
    map["response_type" := "code",
        "client_id" := config.clientId,
        "scope" := config.scope,
        "state" := state,
        "redirect_uri" := config.redirectUri]
  }

  /** The launch request carries exactly seven parameters, its `aud` and `launch` defaulting
      as described; the re-login request carries exactly five and is the launch request
      without `aud` and `launch`. */
  lemma AuthorizationRequests(config: Config, launchToken: Option<string>, issuer: Option<string>, state: string)
    ensures var p := AuthorizeParams(config, launchToken, issuer, state);
      p.Keys == {"response_type", "client_id", "scope", "redirect_uri", "state", "aud", "launch"} &&
      p["response_type"] == "code" && p["state"] == state &&
      p["aud"] == (if issuer.Some? && issuer.value != "" then issuer.value else config.fhirBaseUrl) &&
      p["launch"] == (if launchToken.Some? && launchToken.value != "" then launchToken.value else config.launchToken)
    ensures LoginParams(config, state).Keys == {"response_type", "client_id", "scope", "state", "redirect_uri"}
    ensures LoginParams(config, state) == AuthorizeParams(config, launchToken, issuer, state) - {"aud", "launch"}
  {
  }

  /** Session storage after `initialize`: the session blob removed, the launch context stored
      for the parameters that are present and non-empty, and the new anti-CSRF state token. */
  function AfterInitialize(items: map<string, Stored>, query: map<string, string>, state: string): map<string, Stored> {
    var launchToken := Get(query, "launch");
    var issuer := Get(query, "iss");
    var patientId := Get(query, "patient");
    var cleared := items - {AuthStateKey};
    var withLaunch := if Truthy(launchToken) then cleared[LaunchTokenKey := Text(launchToken.value)] else cleared;
    var withIssuer := if Truthy(issuer) then withLaunch[IssuerKey := Text(issuer.value)] else withLaunch;
    var withPatient := if Truthy(patientId) then withIssuer[LaunchPatientKey := Text(patientId.value)] else withIssuer;
    withPatient[CsrfStateKey := Text(state)]
  }

  /** Whether `key` holds the query parameter `name` after initialize: its value when present
      and non-empty, and otherwise whatever was stored before (a stale value is kept). */
  predicate StoresParameter(before: map<string, Stored>, after: map<string, Stored>,
                            query: map<string, string>, name: string, key: string)
  {
    if Truthy(Get(query, name)) then key in after && after[key] == Text(query[name])
    else (key in after <==> key in before) && (key in before ==> after[key] == before[key])
  }

  /** `initialize` always drops the session blob and stores the fresh state token; it stores the
      launch token, issuer and launch patient only when present, leaving earlier values in
      place otherwise; every other item is untouched. */
  lemma InitializeStorage(items: map<string, Stored>, query: map<string, string>, state: string)
    ensures var after := AfterInitialize(items, query, state);
      AuthStateKey !in after &&
      CsrfStateKey in after && after[CsrfStateKey] == Text(state) &&
      StoresParameter(items, after, query, "launch", LaunchTokenKey) &&
      StoresParameter(items, after, query, "iss", IssuerKey) &&
      StoresParameter(items, after, query, "patient", LaunchPatientKey) &&
      forall k :: k in items && k !in {AuthStateKey, CsrfStateKey, LaunchTokenKey, IssuerKey, LaunchPatientKey} ==>
        k in after && after[k] == items[k]
  {
  }

  /** `initialize`: clears the stale session blob, records the launch context and a fresh state
      token, and redirects to the authorization endpoint with the returned parameters. */
  method Initialize(storage: SessionStorage, config: Config, query: map<string, string>, state: string)
    returns (redirect: map<string, string>)
    modifies storage
    ensures storage.items == AfterInitialize(old(storage.items), query, state)
    ensures redirect == AuthorizeParams(config, Get(query, "launch"), Get(query, "iss"), state)
  {
    storage.RemoveItem(AuthStateKey);
    var launchToken := Get(query, "launch");
    var issuer := Get(query, "iss");
    var patientId := Get(query, "patient");
    if Truthy(launchToken) {
      storage.SetItem(LaunchTokenKey, Text(launchToken.value));
    }
    if Truthy(issuer) {
      storage.SetItem(IssuerKey, Text(issuer.value));
    }
    if Truthy(patientId) {
      storage.SetItem(LaunchPatientKey, Text(patientId.value));
    }
    storage.SetItem(CsrfStateKey, Text(state));
    redirect := AuthorizeParams(config, launchToken, issuer, state);
  }

  /** `getLoginUrl`: stores a fresh state token and returns the re-login request's parameters. */
  method GetLoginUrl(storage: SessionStorage, config: Config, state: string)
    returns (params: map<string, string>)
    modifies storage
    ensures storage.items == old(storage.items)[CsrfStateKey := Text(state)]
    ensures params == LoginParams(config, state)
    ensures "aud" !in params && "launch" !in params
  {
    storage.SetItem(CsrfStateKey, Text(state));
    params := LoginParams(config, state);
  }

  // ---------------------------------------------------------------------------
  // The token endpoint

  /** A JSON error body of a rejected token request: `null`, or a value with its `error`
      property (when a string) and its `JSON.stringify` text. */
  datatype ErrorJson = JsonNull | JsonValue(error: Option<string>, serialized: string)

  /** What a POST to the token endpoint yields: a 2xx response with its text and parsed body
      (None when the text is not JSON), another status with its text and parsed body, or a
      rejected fetch. */
  datatype TokenReply =
    | TokenOk(body: string, parsed: Option<TokenResponse>)
    | TokenRejected(status: nat, body: string, errorJson: Option<ErrorJson>)
    | TokenNetworkError(message: string)

  /** The form posted to exchange an authorization code. */
  function ExchangeForm(config: Config, code: string): map<string, string> {
    map["grant_type" := "authorization_code", "code" := code,
        "client_id" := config.clientId, "redirect_uri" := config.redirectUri]
  }

  /** The form posted to refresh a token. */
  function RefreshForm(config: Config, refreshToken: string): map<string, string> {
    map["grant_type" := "refresh_token", "refresh_token" := refreshToken, "client_id" := config.clientId]
  }

  /** The three ways `exchangeCodeForToken` ends. */
  datatype ExchangeOutcome = Exchanged(tokens: TokenResponse) | Restart | ExchangeFailed(error: Exception)

  const ExchangeFailedPrefix: string := "Token exchange failed: "

  /** Classifies the token endpoint's reply to a code exchange. A rejected exchange whose JSON
      error is `invalid_grant` restarts the flow; any other rejection fails with a message
      carrying the serialized error or, when the body is not JSON (or is `null`), the raw body. */
  function ClassifyExchange(reply: TokenReply): ExchangeOutcome {
    match reply
    case TokenNetworkError(m) => ExchangeFailed(Error(m))
    case TokenOk(_, parsed) =>
      if parsed.Some? then Exchanged(parsed.value) else ExchangeFailed(SyntaxError)
    case TokenRejected(_, body, errorJson) =>
      match errorJson
      case None => ExchangeFailed(Error(ExchangeFailedPrefix + body))
      case Some(JsonNull) => ExchangeFailed(Error(ExchangeFailedPrefix + "null: " + body))
      case Some(JsonValue(error, serialized)) =>
        if error == Some("invalid_grant") then Restart
        else ExchangeFailed(Error(ExchangeFailedPrefix + serialized))
  }

  /** Exactly three outcomes: the parsed tokens for a 2xx JSON reply; a restart exactly for a
      rejection whose JSON error is `invalid_grant`; and for every other rejection an error
      whose message starts with "Token exchange failed: ". */
  lemma ExchangeOutcomes(reply: TokenReply)
    ensures ClassifyExchange(reply).Exchanged? <==> reply.TokenOk? && reply.parsed.Some?
    ensures ClassifyExchange(reply).Exchanged? ==> ClassifyExchange(reply).tokens == reply.parsed.value
    ensures ClassifyExchange(reply).Restart? <==>
      reply.TokenRejected? && reply.errorJson.Some? && reply.errorJson.value.JsonValue? &&
      reply.errorJson.value.error == Some("invalid_grant")
    ensures reply.TokenRejected? && !ClassifyExchange(reply).Restart? ==>
      var e := ClassifyExchange(reply);
      e.ExchangeFailed? && e.error.Error? && ExchangeFailedPrefix <= e.error.message
  {
    if reply.TokenRejected? && !ClassifyExchange(reply).Restart? {
      var m := ClassifyExchange(reply).error.message;
      match reply.errorJson
      case None =>
        assert m == ExchangeFailedPrefix + reply.body;
      case Some(JsonNull) =>
        assert m == ExchangeFailedPrefix + ("null: " + reply.body);
      case Some(JsonValue(_, serialized)) =>
        assert m == ExchangeFailedPrefix + serialized;
    }
  }

  /** `refreshAccessToken`'s reading of the reply: the parsed tokens of a 2xx reply, otherwise
      a failure. */
  function RefreshResult(reply: TokenReply): Result<TokenResponse> {
    match reply
    case TokenNetworkError(m) => Fail(Error(m))
    case TokenRejected(_, _, _) => Fail(Error("Failed to refresh token"))
    case TokenOk(_, parsed) => if parsed.Some? then Ok(parsed.value) else Fail(SyntaxError)
  }

  /** A refresh accepts exactly the replies a code exchange accepts, with the same tokens, but
      never restarts the flow: every rejection is the one generic "Failed to refresh token". */
  lemma RefreshAgreesWithExchange(reply: TokenReply)
    ensures RefreshResult(reply).Ok? <==> ClassifyExchange(reply).Exchanged?
    ensures RefreshResult(reply).Ok? ==> RefreshResult(reply).value == ClassifyExchange(reply).tokens
    ensures reply.TokenRejected? ==> RefreshResult(reply) == Fail(Error("Failed to refresh token"))
  {
  }

  /** The session a successful refresh stores: the patient defaults to "" and the banner flag is
      left undefined. */
  function RefreshedSession(tokens: TokenResponse, now: int): AuthState {
    AuthStore.NewSession(tokens.accessToken, tokens.refreshToken, tokens.idToken,
                         now + tokens.expiresIn * 1000, OrElse(tokens.patient, ""), tokens.user, None)
  }

  /** `exchangeCodeForToken`: posts the code; on `invalid_grant` runs `initialize` and resolves to
      `undefined` (None). */
  method ExchangeCodeForToken(storage: SessionStorage, config: Config, code: string,
                              query: map<string, string>, tokenEndpoint: map<string, string> -> TokenReply,
                              state: string)
    returns (r: Result<Option<TokenResponse>>)
    modifies storage
    ensures match ClassifyExchange(tokenEndpoint(ExchangeForm(config, code)))
      case Exchanged(t) => r == Ok(Some(t)) && storage.items == old(storage.items)
      case Restart => r == Ok(None) && storage.items == AfterInitialize(old(storage.items), query, state)
      case ExchangeFailed(e) => r == Fail(e) && storage.items == old(storage.items)
  {
    var reply := tokenEndpoint(ExchangeForm(config, code));
    match ClassifyExchange(reply)
    case Exchanged(t) =>
      r := Ok(Some(t));
    case Restart =>
      var _ := Initialize(storage, config, query, state);
      r := Ok(None);
    case ExchangeFailed(e) =>
      r := Fail(e);
  }

  /** `refreshAccessToken`: posts the refresh token; on success replaces the session, otherwise
      fails and leaves the store as it was. */
  method RefreshAccessToken(store: AuthStore.Store, config: Config, refreshToken: string,
                            tokenEndpoint: map<string, string> -> TokenReply, now: int)
    returns (r: Result<TokenResponse>)
    modifies store, store.storage
    ensures r == RefreshResult(tokenEndpoint(RefreshForm(config, refreshToken)))
    ensures r.Ok? ==> store.State() == RefreshedSession(r.value, now)
    ensures r.Ok? ==> store.storage.items == old(store.storage.items)[AuthStateKey := SessionBlob(store.State())]
    ensures r.Fail? ==> store.State() == old(store.State()) && store.storage.items == old(store.storage.items)
  {
    r := RefreshResult(tokenEndpoint(RefreshForm(config, refreshToken)));
    if r.Ok? {
      var t := r.value;
      store.SetTokens(t.accessToken, t.refreshToken, t.idToken, t.expiresIn, OrElse(t.patient, ""), t.user, None, now);
    }
  }

  // ---------------------------------------------------------------------------
  // The callback

  /** The fields of a decoded access-token payload that name the patient: `patient_id` and
      `context.patient`. */
  datatype TokenPayload = TokenPayload(patientId: Option<string>, contextPatient: Option<string>)

  /** `payload.patient_id || payload.context?.patient || ''`. */
  function PayloadPatient(p: TokenPayload): string {
    OrElse(p.patientId, OrElse(p.contextPatient, ""))
  }

  /** The patient of the session, by priority: the token response's `patient`; else the
      callback URL's `patient` parameter; else, when the access token has exactly three
      dot-separated segments, the patient named by its decoded middle segment; else "". A
      decoding failure (None) gives "". */
  function ResolvePatientId(tokens: TokenResponse, urlPatient: Option<string>,
                            decode: string -> Option<TokenPayload>): (id: string)
  {
    if Truthy(tokens.patient) then tokens.patient.value
    else if Truthy(urlPatient) then urlPatient.value
    else if tokens.accessToken != "" then
      var parts := Split(tokens.accessToken, '.');
      if |parts| == 3 then
        match decode(parts[1])
        case Some(payload) => PayloadPatient(payload)
        case None => ""
      else ""
    else ""
  }

  /** A string with exactly two dots is its three `split('.')` pieces joined by dots. */
  lemma ThreeSegments(s: string)
    requires Count(s, '.') == 2
    ensures var parts := Split(s, '.');
      |parts| == 3 && s == parts[0] + "." + parts[1] + "." + parts[2]
  {
    JoinThree(Split(s, '.'), '.');
  }

  /** Three pieces joined: the first, the separator, the second, the separator, the third. */
  lemma JoinThree(parts: seq<string>, c: char)
    requires |parts| == 3
    ensures Join(parts, c) == parts[0] + [c] + parts[1] + [c] + parts[2]
  {
    var tail := parts[1..];
    assert tail[1..] == [parts[2]];
    assert Join(tail, c) == parts[1] + [c] + parts[2];
    assert Join(parts, c) == parts[0] + [c] + (parts[1] + [c] + parts[2]);
  }

  /** The resolution's priority order, case by case, with the segment test stated as "the
      access token holds exactly two dots". */
  lemma PatientIdPriority(tokens: TokenResponse, urlPatient: Option<string>,
                          decode: string -> Option<TokenPayload>)
    ensures var id := ResolvePatientId(tokens, urlPatient, decode);
      (Truthy(tokens.patient) ==> id == tokens.patient.value) &&
      (!Truthy(tokens.patient) && Truthy(urlPatient) ==> id == urlPatient.value) &&
      (!Truthy(tokens.patient) && !Truthy(urlPatient) && Count(tokens.accessToken, '.') != 2 ==> id == "")
  {
    if tokens.accessToken == "" {
      assert Count(tokens.accessToken, '.') == 0;
    }
  }

  /** The last resort: with neither the token response nor the URL naming a patient and a token
      of three segments, the patient is the one the decoder finds in the middle segment. */
  lemma PatientIdFromToken(tokens: TokenResponse, urlPatient: Option<string>,
                           decode: string -> Option<TokenPayload>)
    requires !Truthy(tokens.patient) && !Truthy(urlPatient) && Count(tokens.accessToken, '.') == 2
    ensures var parts := Split(tokens.accessToken, '.');
      |parts| == 3 && tokens.accessToken == parts[0] + "." + parts[1] + "." + parts[2] &&
      ResolvePatientId(tokens, urlPatient, decode) ==
        (if decode(parts[1]).Some? then PayloadPatient(decode(parts[1]).value) else "")
  {
    ThreeSegments(tokens.accessToken);
  }

  /** The payload decoder is consulted only when neither the token response nor the URL names
      a patient and the access token has three segments: otherwise any two decoders give the
      same patient. */
  lemma DecoderConsultedOnlyForThreeSegments(tokens: TokenResponse, urlPatient: Option<string>,
                                             decode1: string -> Option<TokenPayload>,
                                             decode2: string -> Option<TokenPayload>)
    requires Truthy(tokens.patient) || Truthy(urlPatient) || Count(tokens.accessToken, '.') != 2
    ensures ResolvePatientId(tokens, urlPatient, decode1) == ResolvePatientId(tokens, urlPatient, decode2)
  {
    var parts := Split(tokens.accessToken, '.');
    assert |parts| == Count(tokens.accessToken, '.') + 1;
  }

  /** A resolved patient id that is not empty comes from one of the three sources: the token
      response, the URL, or a field of the payload decoded from the token's middle segment. */
  lemma PatientIdProvenance(tokens: TokenResponse, urlPatient: Option<string>,
                            decode: string -> Option<TokenPayload>)
    ensures var id := ResolvePatientId(tokens, urlPatient, decode);
      var parts := Split(tokens.accessToken, '.');
      id != "" ==>
        tokens.patient == Some(id) || urlPatient == Some(id) ||
        (|parts| == 3 && decode(parts[1]).Some? &&
         (decode(parts[1]).value.patientId == Some(id) || decode(parts[1]).value.contextPatient == Some(id)))
  {
  }

  /** `handleCallback`: exchanges the code, resolves the patient, stores the session and selects
      the patient when one was resolved. After an `invalid_grant` restart the exchange resolves to
      `undefined`, and reading its `patient` throws a TypeError. */
  method HandleCallback(store: AuthStore.Store, patients: PatientStore.Store, config: Config, code: string,
                        query: map<string, string>, tokenEndpoint: map<string, string> -> TokenReply,
                        decode: string -> Option<TokenPayload>, now: int, state: string)
    returns (r: Result<()>)
    modifies store, store.storage, patients
    ensures match ClassifyExchange(tokenEndpoint(ExchangeForm(config, code)))
      case Exchanged(t) =>
        var id := ResolvePatientId(t, Get(query, "patient"), decode);
        r == Ok(()) &&
        store.State() == AuthStore.NewSession(t.accessToken, t.refreshToken, t.idToken,
                                              now + t.expiresIn * 1000, id, t.user, None) &&
        store.storage.items == old(store.storage.items)[AuthStateKey := SessionBlob(store.State())] &&
        (id != "" ==> patients.State() == old(patients.State()).(patientId := Some(id), loading := true)) &&
        (id == "" ==> patients.State() == old(patients.State()))
      case Restart =>
        r == Fail(TypeError) && store.State() == old(store.State()) &&
        store.storage.items == AfterInitialize(old(store.storage.items), query, state) &&
        patients.State() == old(patients.State())
      case ExchangeFailed(e) =>
        r == Fail(e) && store.State() == old(store.State()) &&
        store.storage.items == old(store.storage.items) && patients.State() == old(patients.State())
  {
    var tokenData := ExchangeCodeForToken(store.storage, config, code, query, tokenEndpoint, state);
    if tokenData.Fail? {
      r := Fail(tokenData.error);
      return;
    }
    if tokenData.value.None? {
      r := Fail(TypeError);
      return;
    }
    var t := tokenData.value.value;
    var patientId := OrElse(t.patient, "");
    if patientId == "" {
      patientId := OrElse(Get(query, "patient"), "");
      if patientId == "" && t.accessToken != "" {
        var tokenParts := Split(t.accessToken, '.');
        if |tokenParts| == 3 {
          var payload := decode(tokenParts[1]);
          if payload.Some? {
            patientId := PayloadPatient(payload.value);
          }
        }
      }
    }
    store.SetTokens(t.accessToken, t.refreshToken, t.idToken, t.expiresIn, patientId, t.user, None, now);
    if patientId != "" {
      patients.SetPatientId(patientId);
    }
    r := Ok(());
  }

  // ---------------------------------------------------------------------------
  // The credential gate

  /** `authStore.getAccessToken`: refreshes when the stored token expires within a minute and a
      refresh token is stored; on a failed refresh clears the session, stores the re-login
      state token, redirects to the re-login request and yields `null`. Whatever happens, the token returned is the access token
      the store holds afterwards. `now` is the gate's clock reading and `refreshedAt` the one
      `setTokens` takes after the refresh reply has arrived. */
  method GetAccessToken(store: AuthStore.Store, config: Config, now: int, refreshedAt: int,
                        tokenEndpoint: map<string, string> -> TokenReply, loginState: string)
    returns (token: Option<string>, redirect: Option<map<string, string>>)
    modifies store, store.storage
    ensures token == store.State().accessToken
    ensures redirect.Some? <==> AuthStore.NeedsRefresh(old(store.State()), now) && token == None
    ensures var s := old(store.State());
      !AuthStore.NeedsRefresh(s, now) ==>
        token == s.accessToken && store.State() == s && store.storage.items == old(store.storage.items)
    ensures var s := old(store.State());
      AuthStore.NeedsRefresh(s, now) ==>
        match RefreshResult(tokenEndpoint(RefreshForm(config, s.refreshToken.value)))
        case Ok(t) =>
          token == Some(t.accessToken) && redirect == None &&
          store.State() == RefreshedSession(t, refreshedAt) &&
          store.storage.items == old(store.storage.items)[AuthStateKey := SessionBlob(store.State())]
        case Fail(_) =>
          token == None && redirect == Some(LoginParams(config, loginState)) &&
          store.State() == AuthStore.EmptySession() &&
          store.storage.items == (old(store.storage.items) - {AuthStateKey})[CsrfStateKey := Text(loginState)]
  {
    var s := store.State();
    var isExpired := AuthStore.IsExpired(s.expiresAt, now);
    if isExpired && Truthy(s.refreshToken) {
      var newTokens := RefreshAccessToken(store, config, s.refreshToken.value, tokenEndpoint, refreshedAt);
      if newTokens.Ok? {
        token, redirect := Some(newTokens.value.accessToken), None;
      } else {
        store.ClearAuth();
        var params := GetLoginUrl(store.storage, config, loginState);
        token, redirect := None, Some(params);
      }
    } else {
      token, redirect := s.accessToken, None;
    }
  }
}
