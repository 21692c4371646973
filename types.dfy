/** The record shapes the client exchanges with its stores, the authorization server and the
    FHIR server (src/types/auth.ts, src/types/patient.ts, src/types/vitals.ts). Optional
    properties and `string | null` become `Option`. */
module Types {
  import opened Common

  /** The authentication session the token store holds and persists. `needPatientBanner` is
      optional because the controller's calls to `setTokens` leave it `undefined`. */
  datatype AuthState = AuthState(
    isAuthenticated: bool,
    accessToken: Option<string>,
    refreshToken: Option<string>,
    idToken: Option<string>,
    error: Option<string>,
    expiresAt: Option<int>,
    patientId: Option<string>,
    userId: Option<string>,
    needPatientBanner: Option<bool>)

  /** The JSON body of a successful token-endpoint response. */
  datatype TokenResponse = TokenResponse(
    accessToken: string,
    refreshToken: Option<string>,
    idToken: Option<string>,
    tokenType: string,
    expiresIn: int,
    scope: string,
    patient: Option<string>,
    encounter: Option<string>,
    user: Option<string>)

  datatype HumanName = HumanName(given: seq<string>, family: Option<string>, text: Option<string>)

  /** A FHIR Patient resource, as far as the client reads it. */
  datatype Patient = Patient(
    id: string,
    name: seq<HumanName>,
    birthDate: Option<string>,
    gender: Option<string>)

  /** The selected patient, the fetched resource, and the fetch's progress. */
  datatype PatientState = PatientState(
    patientId: Option<string>,
    patient: Option<Patient>,
    error: Option<string>,
    loading: bool)

  datatype Quantity = Quantity(value: real, unit: string, system: Option<string>, code: Option<string>)

  /** A vital-sign Observation resource as returned by the FHIR server. */
  datatype VitalSign = VitalSign(
    id: string,
    resourceType: string,
    status: string,
    effectiveDateTime: string,
    valueQuantity: Option<Quantity>)

  datatype BundleEntry = BundleEntry(resource: VitalSign)

  /** The search-set Bundle returned by an Observation search; `entry` is absent when
      nothing matched. */
  datatype VitalSignsResponse = VitalSignsResponse(
    resourceType: string,
    bundleType: string,
    total: int,
    entry: Option<seq<BundleEntry>>)
}
