/** The browser's session-scoped storage, shared by the token store and the auth controller.
    A stored value is either plain text or the serialized session blob; the blob is kept as
    the session value it serializes (`JSON.stringify`/`JSON.parse` are not modelled). */
module Browser {
  import opened Common
  import opened Types

  datatype Stored = Text(text: string) | SessionBlob(state: AuthState)

  /** Key of the persisted session blob. */
  const AuthStateKey: string := "authState"
  /** Key of the anti-CSRF state token. */
  const CsrfStateKey: string := "auth_state"
  const LaunchTokenKey: string := "launch_token"
  const IssuerKey: string := "iss"
  const LaunchPatientKey: string := "launch_patient_id"

  class SessionStorage {
    var items: map<string, Stored>

    constructor (items: map<string, Stored>)
      ensures this.items == items
    {
      this.items := items;
    }

    method SetItem(key: string, value: Stored)
      modifies this
      ensures items == old(items)[key := value]
    {
      items := items[key := value];
    }

    method RemoveItem(key: string)
      modifies this
      ensures items == old(items) - {key}
    {
      items := items - {key};
    }
  }
}
