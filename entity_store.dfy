/** The state container that every entity store (patients, doctors,
    visits, fees, activity logs) instantiates: the list, the selected
    entry, the loading flag, the error slot and the time of the last full
    load.  Each method is one action handler; like `ctx.patchState` it
    writes the fields it names and leaves the others as they were. */
module Store {
  import opened Common
  import opened EntityList

  class EntityStore<T> {
    /** The id projection (`patientId`, `doctorId`, `visitId`, `feeId`, `logId`). */
    const idOf: T -> int

    var items: seq<T>
    var selected: Option<T>
    var loading: bool
    var error: Option<string>
    /** Milliseconds since the epoch of the last successful full load. */
    var lastFetched: Option<int>

    /** The `defaults` of the store. */
    constructor (idOf: T -> int)
      ensures this.idOf == idOf
      ensures items == [] && selected == None && !loading && error == None && lastFetched == None
    {
      this.idOf := idOf;
      items := [];
      selected := None;
      loading := false;
      error := None;
      lastFetched := None;
    }

    /** The `...Count` selector: the number of loaded entries. */
    function Count(): (n: nat)
      reads this
      ensures n == |items|
      ensures n == 0 <==> items == []
    {
      |items|
    }

    /** Every trigger action (load all, load one, create, update, delete)
        first marks the store busy and clears the previous error. */
    method Begin()
      modifies this
      ensures loading && error == None
      ensures items == old(items) && selected == old(selected) && lastFetched == old(lastFetched)
    {
      loading := true;
      error := None;
    }

    /** A full load succeeded: the list becomes exactly the response and
        the fetch time is recorded; the selection is kept. */
    method LoadAllSuccess(payload: seq<T>, now: int)
      modifies this
      ensures items == payload && lastFetched == Some(now)
      ensures !loading && error == None
      ensures selected == old(selected)
    {
      items := payload;
      loading := false;
      error := None;
      lastFetched := Some(now);
    }

    /** A get-by-id succeeded: the response becomes the selection; the
        list is not touched. */
    method LoadOneSuccess(payload: T)
      modifies this
      ensures selected == Some(payload) && !loading && error == None
      ensures items == old(items) && lastFetched == old(lastFetched)
    {
      selected := Some(payload);
      loading := false;
      error := None;
    }

    /** A create succeeded: the server's entry is appended at the end. */
    method CreateSuccess(payload: T)
      modifies this
      ensures items == old(items) + [payload]
      ensures Count() == old(Count()) + 1 && items[..old(Count())] == old(items) && items[Count() - 1] == payload
      ensures !loading && error == None
      ensures selected == old(selected) && lastFetched == old(lastFetched)
    {
      items := items + [payload];
      loading := false;
      error := None;
    }

    /** An update succeeded: every entry with the payload's identifier is
        replaced by it, in place, and the payload becomes the selection. */
    method UpdateSuccess(payload: T)
      modifies this
      ensures items == ReplaceById(old(items), idOf, payload)
      ensures !HasId(old(items), idOf, idOf(payload)) ==> items == old(items)
      ensures HasId(old(items), idOf, idOf(payload)) ==> FindById(items, idOf, idOf(payload)) == Some(payload)
      ensures UniqueIds(old(items), idOf) ==> UniqueIds(items, idOf)
      ensures selected == Some(payload) && !loading && error == None
      ensures lastFetched == old(lastFetched)
    {
      if !HasId(items, idOf, idOf(payload)) {
        ReplaceAbsent(items, idOf, payload);
      } else {
        FindAfterReplace(items, idOf, payload);
      }
      if UniqueIds(items, idOf) {
        ReplacePreservesUnique(items, idOf, payload);
      }
      items := ReplaceById(items, idOf, payload);
      selected := Some(payload);
      loading := false;
      error := None;
    }

    /** A delete succeeded: every entry with that identifier is dropped,
        the others keep their order, and the selection is cleared exactly
        when it carries that identifier. */
    method DeleteSuccess(id: int)
      modifies this
      ensures items == RemoveById(old(items), idOf, id)
      ensures !HasId(items, idOf, id) && IsSubsequence(items, old(items))
      ensures Count() == old(Count()) - CountId(old(items), idOf, id)
      ensures forall k :: 0 <= k < |old(items)| && idOf(old(items)[k]) != id ==> old(items)[k] in items
      ensures !HasId(old(items), idOf, id) ==> items == old(items)
      ensures UniqueIds(old(items), idOf) ==> UniqueIds(items, idOf)
      ensures selected == (if old(selected).Some? && idOf(old(selected).value) == id then None else old(selected))
      ensures !loading && error == None && lastFetched == old(lastFetched)
    {
      RemoveKeepsOthers(items, idOf, id);
      RemoveIsSubsequence(items, idOf, id);
      if !HasId(items, idOf, id) {
        RemoveAbsent(items, idOf, id);
      }
      if UniqueIds(items, idOf) {
        RemovePreservesUnique(items, idOf, id);
      }
      items := RemoveById(items, idOf, id);
      if selected.Some? && idOf(selected.value) == id {
        selected := None;
      }
      loading := false;
      error := None;
    }

    /** Every `...Failure` handler: the store stops loading and records
        the message; list, selection and fetch time are kept (stale data
        stays visible). */
    method Fail(message: string)
      modifies this
      ensures !loading && error == Some(message)
      ensures items == old(items) && selected == old(selected) && lastFetched == old(lastFetched)
    {
      loading := false;
      error := Some(message);
    }

    /** The `Clear...Error` action: only the error slot changes, so a
        second application changes nothing. */
    method ClearError()
      modifies this
      ensures error == None
      ensures items == old(items) && selected == old(selected) && loading == old(loading)
      ensures lastFetched == old(lastFetched)
    {
      error := None;
    }

    /** The load-all action followed by the handler of its service outcome. */
    method LoadAll(outcome: Outcome<seq<T>>, now: int)
      modifies this
      ensures !loading && selected == old(selected)
      ensures outcome.Success? ==> items == outcome.value && lastFetched == Some(now) && error == None
      ensures outcome.Failure? ==> items == old(items) && lastFetched == old(lastFetched) && error == Some(outcome.message)
    {
      Begin();
      match outcome {
        case Success(payload) => LoadAllSuccess(payload, now);
        case Failure(message) => Fail(message);
      }
    }

    /** The load-one action (the identifier only reaches the service) and
        the handler of its outcome. */
    method LoadOne(outcome: Outcome<T>)
      modifies this
      ensures !loading && items == old(items) && lastFetched == old(lastFetched)
      ensures outcome.Success? ==> selected == Some(outcome.value) && error == None
      ensures outcome.Failure? ==> selected == old(selected) && error == Some(outcome.message)
    {
      Begin();
      match outcome {
        case Success(payload) => LoadOneSuccess(payload);
        case Failure(message) => Fail(message);
      }
    }

    /** The create action and the handler of its outcome. */
    method Create(outcome: Outcome<T>)
      modifies this
      ensures !loading && selected == old(selected) && lastFetched == old(lastFetched)
      ensures outcome.Success? ==> items == old(items) + [outcome.value] && error == None
      ensures outcome.Failure? ==> items == old(items) && error == Some(outcome.message)
    {
      Begin();
      match outcome {
        case Success(payload) => CreateSuccess(payload);
        case Failure(message) => Fail(message);
      }
    }

    /** The update action and the handler of its outcome. */
    method Update(outcome: Outcome<T>)
      modifies this
      ensures !loading && lastFetched == old(lastFetched)
      ensures outcome.Success? ==> items == ReplaceById(old(items), idOf, outcome.value)
                                   && selected == Some(outcome.value) && error == None
      ensures outcome.Failure? ==> items == old(items) && selected == old(selected)
                                   && error == Some(outcome.message)
    {
      Begin();
      match outcome {
        case Success(payload) => UpdateSuccess(payload);
        case Failure(message) => Fail(message);
      }
    }

    /** The delete action and the handler of its outcome; the identifier
        of a successful delete comes from the action, not the response. */
    method Delete(id: int, outcome: Outcome<()>)
      modifies this
      ensures !loading && lastFetched == old(lastFetched)
      ensures outcome.Success? ==> items == RemoveById(old(items), idOf, id) && error == None
                                   && selected == (if old(selected).Some? && idOf(old(selected).value) == id then None else old(selected))
      ensures outcome.Failure? ==> items == old(items) && selected == old(selected)
                                   && error == Some(outcome.message)
    {
      Begin();
      match outcome {
        case Success(_) => DeleteSuccess(id);
        case Failure(message) => Fail(message);
      }
    }
  }
}
