/** The patient store (src/stores/patientStore.ts): the selected patient id, the fetched Patient
    resource and the fetch's loading/error state. Every transition overwrites the named fields
    and keeps the rest. */
module PatientStore {
  import opened Common
  import opened Types

  /** Nothing selected, nothing loading. */
  function InitialState(): PatientState {
    PatientState(None, None, None, false)
  }

  class Store {
    var patientId: Option<string>
    var patient: Option<Patient>
    var error: Option<string>
    var loading: bool

    function State(): PatientState
      reads this
    {
      PatientState(patientId, patient, error, loading)
    }

    /** `writable(initialState)`. */
    constructor ()
      ensures State() == InitialState()
    {
      patientId, patient, error, loading := None, None, None, false;
    }

    /** Selects a patient and marks its fetch as in progress. */
    method SetPatientId(patientId: string)
      modifies this
      ensures this.patientId == Some(patientId) && loading
      ensures patient == old(patient) && error == old(error)
    {
      this.patientId, loading := Some(patientId), true;
    }

    /** Records the fetched resource (`null` included) and ends loading without an error. */
    method SetPatient(patient: Option<Patient>)
      modifies this
      ensures this.patient == patient && !loading && error == None
      ensures patientId == old(patientId)
    {
      this.patient, loading, error := patient, false, None;
    }

    /** Records a failure and ends loading; the selection and any fetched resource stay. */
    method SetError(error: string)
      modifies this
      ensures this.error == Some(error) && !loading
      ensures patientId == old(patientId) && patient == old(patient)
    {
      this.error, loading := Some(error), false;
    }

    /** Back to the initial state, whatever the current one is (so resetting twice is
        resetting once). */
    method Reset()
      modifies this
      ensures State() == InitialState()
      ensures patientId == None && patient == None && error == None && !loading
    {
      patientId, patient, error, loading := None, None, None, false;
    }
  }
}
