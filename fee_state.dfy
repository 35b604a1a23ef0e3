/** The fee store: an entity store keyed by `feeId`. */
module FeeState {
  import opened Common
  import opened Store

  /** A billable service; `amount` is carried as an opaque number. */
  datatype Fee = Fee(feeId: int, serviceName: string, amount: real)

  function FeeId(f: Fee): int { f.feeId }

  /** The store with its declared defaults. */
  method NewFeeStore() returns (s: EntityStore<Fee>)
    ensures fresh(s) && s.idOf == FeeId
    ensures s.items == [] && s.selected == None && !s.loading && s.error == None && s.lastFetched == None
  {
    s := new EntityStore(FeeId);
  }

  /** A confirmed delete of fee 7 while fee 7 is selected leaves no
      selection and no fee 7 in the list. */
  method DeleteSelectedFeeSeven(s: EntityStore<Fee>)
    requires s.idOf == FeeId && s.selected.Some? && s.selected.value.feeId == 7
    modifies s
    ensures s.selected == None
    ensures forall k :: 0 <= k < |s.items| ==> s.items[k].feeId != 7
    ensures !s.loading && s.error == None
  {
    s.Delete(7, Success(()));
  }
}
