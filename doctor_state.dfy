/** The doctor store: an entity store keyed by `doctorId`. */
module DoctorState {
  import opened Common
  import opened Store

  datatype Doctor = Doctor(
    doctorId: int,
    firstName: string,
    lastName: string,
    specialty: Option<string>,
    phone: Option<string>,
    email: Option<string>)

  function DoctorId(d: Doctor): int { d.doctorId }

  /** The store with its declared defaults. */
  method NewDoctorStore() returns (s: EntityStore<Doctor>)
    ensures fresh(s) && s.idOf == DoctorId
    ensures s.items == [] && s.selected == None && !s.loading && s.error == None && s.lastFetched == None
  {
    s := new EntityStore(DoctorId);
  }
}
