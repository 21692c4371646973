/** The token store (src/stores/authStore.ts): the process-wide authentication session, restored
    from session storage at start-up, replaced wholesale by `setTokens`, reset by `clearAuth`.
    Its `getAccessToken` calls the auth controller's refresh, so it is modelled beside that
    refresh in module AuthService. */
module AuthStore {
  import opened Common
  import opened Types
  import opened Browser

  /** A token that expires within this many milliseconds counts as expired. */
  const RefreshMargin: int := 60000

  /** The unauthenticated shape the store starts from when nothing is persisted. */
  function EmptySession(): AuthState {
    AuthState(false, None, None, None, None, None, None, None, Some(false))
  }

  /** The session restored at start-up: the persisted blob when one is stored, otherwise (no
      item, or an item that is not a session blob and so fails to parse) the empty shape. */
  function LoadPersistedState(items: map<string, Stored>): (s: AuthState)
    ensures AuthStateKey !in items ==> s == EmptySession()
    ensures AuthStateKey in items && items[AuthStateKey].SessionBlob? ==> s == items[AuthStateKey].state
    ensures AuthStateKey in items && items[AuthStateKey].Text? ==> s == EmptySession()
  {
    if AuthStateKey in items && items[AuthStateKey].SessionBlob? then items[AuthStateKey].state
    else EmptySession()
  }

  /** The session `setTokens` builds: authenticated, no error, every argument stored as given. */
  function NewSession(accessToken: string, refreshToken: Option<string>, idToken: Option<string>,
                      expiresAt: int, patientId: string, userId: Option<string>,
                      needPatientBanner: Option<bool>): AuthState
  {
    AuthState(true, Some(accessToken), refreshToken, idToken, None, Some(expiresAt),
              Some(patientId), userId, needPatientBanner)
  }

  /** `state.expiresAt && (state.expiresAt - now < 60000)`: the token expires within the margin.
      A missing expiry and an expiry of 0 are falsy, so such a token never counts as expired. */
  predicate IsExpired(expiresAt: Option<int>, now: int) {
    expiresAt.Some? && expiresAt.value != 0 && expiresAt.value - now < RefreshMargin
  }

  /** The condition under which `getAccessToken` asks for a refresh. */
  predicate NeedsRefresh(s: AuthState, now: int) {
    IsExpired(s.expiresAt, now) && Truthy(s.refreshToken)
  }

  /** A refresh that is due stays due as the clock advances: nothing but a new session can
      stop `getAccessToken` from refreshing once it has started to. */
  lemma RefreshStaysDue(s: AuthState, now: int, later: int)
    requires NeedsRefresh(s, now) && now <= later
    ensures NeedsRefresh(s, later)
  {
  }

  /** A session without an expiry, or with an expiry of 0, is never refreshed, whatever the
      clock says, and neither is one without a non-empty refresh token. */
  lemma NeverDueWithoutExpiryOrRefreshToken(s: AuthState, now: int)
    requires s.expiresAt == None || s.expiresAt == Some(0) || s.refreshToken == None || s.refreshToken == Some("")
    ensures !NeedsRefresh(s, now)
  {
  }

  /** A session stored with a lifetime of a minute or more is not due for a refresh at the
      moment it is stored, whatever its refresh token. */
  lemma FreshSessionNotDue(accessToken: string, refreshToken: Option<string>, idToken: Option<string>,
                           expiresIn: int, patientId: string, userId: Option<string>,
                           needPatientBanner: Option<bool>, now: int)
    requires expiresIn >= 60
    ensures !NeedsRefresh(NewSession(accessToken, refreshToken, idToken, now + expiresIn * 1000,
                                     patientId, userId, needPatientBanner), now)
  {
  }

  class Store {
    var isAuthenticated: bool
    var accessToken: Option<string>
    var refreshToken: Option<string>
    var idToken: Option<string>
    var error: Option<string>
    var expiresAt: Option<int>
    var patientId: Option<string>
    var userId: Option<string>
    var needPatientBanner: Option<bool>
    /** The session storage the store persists to. */
    const storage: SessionStorage

    /** The store's current value, as subscribers see it. */
    function State(): AuthState
      reads this
    {
      AuthState(isAuthenticated, accessToken, refreshToken, idToken, error, expiresAt,
                patientId, userId, needPatientBanner)
    }

    /** A session that claims to be authenticated holds an access token. */
    predicate Consistent()
      reads this
    {
      isAuthenticated ==> accessToken.Some?
    }

    /** `writable(loadPersistedState())`. */
    constructor (storage: SessionStorage)
      ensures this.storage == storage
      ensures State() == LoadPersistedState(storage.items)
    {
      var s := LoadPersistedState(storage.items);
      isAuthenticated, accessToken, refreshToken, idToken := s.isAuthenticated, s.accessToken, s.refreshToken, s.idToken;
      error, expiresAt, patientId, userId := s.error, s.expiresAt, s.patientId, s.userId;
      needPatientBanner := s.needPatientBanner;
      this.storage := storage;
    }

    /** Replaces the whole session with the given tokens, expiring `expiresIn` seconds after
        `now` (milliseconds), and persists it under `authState`; a reload restores it. */
    method SetTokens(accessToken: string, refreshToken: Option<string>, idToken: Option<string>,
                     expiresIn: int, patientId: string, userId: Option<string>,
                     needPatientBanner: Option<bool>, now: int)
      modifies this, storage
      ensures State() == NewSession(accessToken, refreshToken, idToken, now + expiresIn * 1000,
                                    patientId, userId, needPatientBanner)
      ensures isAuthenticated && this.error == None && Consistent()
      ensures this.accessToken == Some(accessToken) && this.refreshToken == refreshToken
      ensures this.idToken == idToken && this.patientId == Some(patientId) && this.userId == userId
      ensures this.needPatientBanner == needPatientBanner
      ensures this.expiresAt == Some(now + expiresIn * 1000)
      ensures storage.items == old(storage.items)[AuthStateKey := SessionBlob(State())]
      ensures LoadPersistedState(storage.items) == State()
    {
      var expires := now + expiresIn * 1000;
      var newState := NewSession(accessToken, refreshToken, idToken, expires, patientId, userId, needPatientBanner);
      storage.SetItem(AuthStateKey, SessionBlob(newState));
      this.isAuthenticated, this.accessToken, this.refreshToken, this.idToken := true, Some(accessToken), refreshToken, idToken;
      this.expiresAt, this.patientId, this.userId := Some(expires), Some(patientId), userId;
      this.needPatientBanner, this.error := needPatientBanner, None;
    }

    /** Removes the persisted blob and resets to the empty shape, whatever the session was; the
        result is the state a start-up with nothing persisted produces, and a reload keeps it. */
    method ClearAuth()
      modifies this, storage
      ensures !isAuthenticated && accessToken == None && refreshToken == None && idToken == None
      ensures error == None && expiresAt == None && patientId == None && userId == None
      ensures needPatientBanner == Some(false)
      ensures State() == LoadPersistedState(map[])
      ensures Consistent()
      ensures storage.items == old(storage.items) - {AuthStateKey}
      ensures LoadPersistedState(storage.items) == State()
    {
      storage.RemoveItem(AuthStateKey);
      isAuthenticated, accessToken, refreshToken, idToken := false, None, None, None;
      error, expiresAt, patientId, userId := None, None, None, None;
      needPatientBanner := Some(false);
    }
  }
}
