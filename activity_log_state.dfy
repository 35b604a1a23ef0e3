/** The activity-log store.  Only the full load reaches a backend; the
    lookup by identifier scans the loaded list, and create, update and
    delete are simulated on the client (the source completes them after a
    timer, here at once). */
module ActivityLogState {
  import opened Common
  import opened EntityList
  import opened Store

  /** A log entry; `timestamp` is milliseconds since the epoch. */
  datatype ActivityLog = ActivityLog(
    logId: int,
    userId: int,
    action: string,
    timestamp: int,
    details: Option<string>,
    username: Option<string>)

  /** The payload of a create request. */
  datatype LogDraft = LogDraft(action: Option<string>, details: Option<string>)

  /** The `data` of an update request: each present field overrides the
      stored one, as an object spread does. */
  datatype LogPatch = LogPatch(
    logId: Option<int>,
    userId: Option<int>,
    action: Option<string>,
    timestamp: Option<int>,
    details: Option<string>,
    username: Option<string>)

  const NotFound := "Activity log not found"

  /** The user every simulated entry is attributed to. */
  const SimulatedUserId := 1

  function LogId(l: ActivityLog): int { l.logId }

  /** The store with its declared defaults. */
  method NewActivityLogStore() returns (s: EntityStore<ActivityLog>)
    ensures fresh(s) && s.idOf == LogId
    ensures s.items == [] && s.selected == None && !s.loading && s.error == None && s.lastFetched == None
  {
    s := new EntityStore(LogId);
  }

  function Pick<V>(o: Option<V>, d: V): V
  {
    if o.Some? then o.value else d
  }

  /** The entry a simulated create makes at time `now`: the clock gives
      both its identifier and its timestamp, an empty or missing action
      reads "Created", and the user is fixed. */
  function SimulatedLog(draft: LogDraft, now: int): (l: ActivityLog)
    ensures l.logId == now && l.timestamp == now && l.userId == SimulatedUserId
    ensures l.action != ""
    ensures draft.action.Some? && draft.action.value != "" ==> l.action == draft.action.value
    ensures !(draft.action.Some? && draft.action.value != "") ==> l.action == "Created"
    ensures l.details == draft.details && l.username == None
  {
    ActivityLog(now, SimulatedUserId, OrDefault(draft.action, "Created"), now, draft.details, None)
  }

  /** `{ ...existing, ...data }`: every field the patch names overrides
      the stored one, and every field it omits keeps the stored value. */
  function Merge(l: ActivityLog, p: LogPatch): (m: ActivityLog)
    ensures m.logId == (if p.logId.Some? then p.logId.value else l.logId)
    ensures m.userId == (if p.userId.Some? then p.userId.value else l.userId)
    ensures m.action == (if p.action.Some? then p.action.value else l.action)
    ensures m.timestamp == (if p.timestamp.Some? then p.timestamp.value else l.timestamp)
    ensures m.details == (if p.details.Some? then p.details else l.details)
    ensures m.username == (if p.username.Some? then p.username else l.username)
  {
    ActivityLog(
      Pick(p.logId, l.logId),
      Pick(p.userId, l.userId),
      Pick(p.action, l.action),
      Pick(p.timestamp, l.timestamp),
      if p.details.Some? then p.details else l.details,
      if p.username.Some? then p.username else l.username)
  }

  /** A patch without fields changes nothing; a patch applied twice is
      applied once; a patch that does not name `logId` keeps it. */
  lemma MergeLaws(l: ActivityLog, p: LogPatch)
    ensures Merge(l, LogPatch(None, None, None, None, None, None)) == l
    ensures Merge(Merge(l, p), p) == Merge(l, p)
    ensures p.logId.None? ==> Merge(l, p).logId == l.logId
    ensures p.logId.Some? ==> Merge(l, p).logId == p.logId.value
  {
  }

  /** Get-by-id without a backend: no busy step; the first loaded entry
      with that identifier is selected, otherwise the not-found error is
      recorded.  The list never changes. */
  method LoadActivityLog(s: EntityStore<ActivityLog>, id: int)
    modifies s
    ensures s.items == old(s.items) && s.lastFetched == old(s.lastFetched) && !s.loading
    ensures HasId(old(s.items), s.idOf, id) ==>
              s.selected == FindById(old(s.items), s.idOf, id) && s.error == None
    ensures !HasId(old(s.items), s.idOf, id) ==>
              s.selected == old(s.selected) && s.error == Some(NotFound)
  {
    match FindById(s.items, s.idOf, id) {
      case Some(log) => s.LoadOneSuccess(log);
      case None => s.Fail(NotFound);
    }
  }

  /** Simulated create: busy step, then the made-up entry is appended. */
  method CreateActivityLog(s: EntityStore<ActivityLog>, draft: LogDraft, now: int)
    modifies s
    ensures s.items == old(s.items) + [SimulatedLog(draft, now)]
    ensures !s.loading && s.error == None
    ensures s.selected == old(s.selected) && s.lastFetched == old(s.lastFetched)
  {
    s.Begin();
    s.CreateSuccess(SimulatedLog(draft, now));
  }

  /** Simulated update: busy step, then the first loaded entry with that
      identifier, overridden by the patch, replaces every entry with the
      merged entry's identifier and becomes the selection; without such
      an entry the not-found error is recorded and the list is kept. */
  method UpdateActivityLog(s: EntityStore<ActivityLog>, id: int, data: LogPatch)
    requires s.idOf == LogId
    modifies s
    ensures !s.loading && s.lastFetched == old(s.lastFetched)
    ensures HasId(old(s.items), LogId, id) ==>
              var merged := Merge(FindById(old(s.items), LogId, id).value, data);
              && s.items == ReplaceById(old(s.items), LogId, merged)
              && s.selected == Some(merged) && s.error == None
    ensures HasId(old(s.items), LogId, id) && data.logId.None? ==>
              s.selected.Some? && s.selected.value.logId == id
    ensures !HasId(old(s.items), LogId, id) ==>
              s.items == old(s.items) && s.selected == old(s.selected) && s.error == Some(NotFound)
  {
    s.Begin();
    match FindById(s.items, s.idOf, id) {
      case Some(existing) => s.UpdateSuccess(Merge(existing, data));
      case None => s.Fail(NotFound);
    }
  }

  /** Simulated delete: it always succeeds. */
  method DeleteActivityLog(s: EntityStore<ActivityLog>, id: int)
    modifies s
    ensures s.items == RemoveById(old(s.items), s.idOf, id)
    ensures !HasId(s.items, s.idOf, id)
    ensures s.selected == (if old(s.selected).Some? && s.idOf(old(s.selected).value) == id then None else old(s.selected))
    ensures !s.loading && s.error == None && s.lastFetched == old(s.lastFetched)
  {
    s.Begin();
    s.DeleteSuccess(id);
  }
}
