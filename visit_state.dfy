/** The visit store: an entity store keyed by `visitId`. */
module VisitState {
  import opened Common
  import opened Store

  /** A visit; `visitDate` is milliseconds since the epoch. */
  datatype Visit = Visit(
    visitId: int,
    patientId: int,
    doctorId: int,
    visitDate: int,
    notes: Option<string>,
    status: Option<string>,
    patientName: Option<string>,
    doctorName: Option<string>)

  function VisitId(v: Visit): int { v.visitId }

  /** The store with its declared defaults. */
  method NewVisitStore() returns (s: EntityStore<Visit>)
    ensures fresh(s) && s.idOf == VisitId
    ensures s.items == [] && s.selected == None && !s.loading && s.error == None && s.lastFetched == None
  {
    s := new EntityStore(VisitId);
  }
}
