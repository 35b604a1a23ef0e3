/** The patient store: an entity store keyed by `patientId`. */
module PatientState {
  import opened Common
  import opened Store

  /** A patient record; dates are milliseconds since the epoch. */
  datatype Patient = Patient(
    patientId: int,
    firstName: string,
    lastName: string,
    dateOfBirth: Option<int>,
    gender: Option<string>,
    phone: Option<string>,
    email: Option<string>,
    address: Option<string>)

  function PatientId(p: Patient): int { p.patientId }

  /** The store with its declared defaults. */
  method NewPatientStore() returns (s: EntityStore<Patient>)
    ensures fresh(s) && s.idOf == PatientId
    ensures s.items == [] && s.selected == None && !s.loading && s.error == None && s.lastFetched == None
  {
    s := new EntityStore(PatientId);
  }
}
