/**
  The complaint store: the request shaping done by the three asynchronous
  actions (fetch, add an update, assign to me), and the reducer that folds
  their pending / fulfilled / rejected phases and the synchronous actions
  into the store's state.

  A remote call is not performed here: its outcome is an input. `signedIn`
  says whether the backend has a current user (when it has none, the
  optional call `currentUser?.callFunction(...)` is skipped and yields
  undefined), and a `Call` says what the call returned or what it threw.
*/
module ComplaintsSlice {
  import opened JsValues

  // ---------------------------------------------------------------------------
  // Entities

  /** One entry of a complaint's update history. */
  datatype Update = Update(message: string, date: string)

  /** A complaint as held in the store. `updates` is None when the field is absent or null. */
  datatype Complaint = Complaint(
    id: string,
    desc: Value,
    status: Value,
    plan: Value,
    city: Value,
    municipalCorporation: Value,
    assignedTo: Value,
    assignedToName: Value,
    updates: Option<seq<Update>>)

  /** The backend's current user, as far as self-assignment reads it. */
  datatype Identity = Identity(id: string, name: Value, email: Value)

  /** What a remote call did: returned a value, or threw an error with a message. */
  datatype Call<T> = Returned(value: T) | Threw(message: string)

  /** The response of the "complaints" remote function; NoResponse is a null or undefined response. */
  datatype Response = NoResponse | Response(data: Option<seq<Complaint>>)

  /** How an asynchronous action settles: fulfilled with a payload, or rejected with a value. */
  datatype Outcome<T> = Fulfilled(payload: T) | Rejected(reason: string)

  datatype FetchResult = FetchResult(complaints: seq<Complaint>, filters: map<string, Value>)
  datatype UpdateResult = UpdateResult(complaintId: string, update: Update)
  datatype AssignResult = AssignResult(complaintId: string, assignedTo: string, assignedToName: Value)

  const NO_DATA := "No data received from API"
  const FETCH_FAILED := "Failed to fetch complaints"
  const NOT_AUTHENTICATED := "User not authenticated"

  // ---------------------------------------------------------------------------
  // Filter keys and the fetch payload

  const QUERY := "query"
  const STATUS := "status"
  const PLAN := "plan"
  const IS_ASSIGNED := "isAssigned"
  const CITY := "city"
  const MUNICIPAL_CORPORATION := "municipalCorporation"
  const DATE_FROM := "dateFrom"
  const DATE_TO := "dateTo"
  const STR_CODE := "strCode"

  /** The keys the fetch action may copy into its payload. */
  const PAYLOAD_KEYS: set<string> :=
    {QUERY, STATUS, PLAN, IS_ASSIGNED, CITY, MUNICIPAL_CORPORATION, DATE_FROM, DATE_TO}

  /** Whether the fetch action copies key `k` holding `v`: isAssigned whenever it is defined, the rest when truthy. */
  predicate Copied(k: string, v: Value) {
    if k == IS_ASSIGNED then v != Undefined else Truthy(v)
  }

  /** The payload the fetch action sends for the filter object `filters` (declarative reference). */
  function FilterPayload(filters: map<string, Value>): (p: map<string, Value>)
    ensures p.Keys <= PAYLOAD_KEYS
    ensures STR_CODE !in p
    ensures forall k | k in PAYLOAD_KEYS && k != IS_ASSIGNED :: k in p <==> Truthy(Lookup(filters, k))
    ensures IS_ASSIGNED in p <==> Lookup(filters, IS_ASSIGNED) != Undefined
    ensures forall k | k in p :: k in filters && p[k] == filters[k]
  {
    map k | k in PAYLOAD_KEYS && k in filters && Copied(k, filters[k]) :: filters[k]
  }

  /** The part of the payload contributed by the keys in `keys`. */
  ghost function PayloadOver(filters: map<string, Value>, keys: set<string>): map<string, Value> {
    map k | k in keys && k in filters && Copied(k, filters[k]) :: filters[k]
  }

  /** Considering one more key adds it exactly when the action copies it. */
  lemma PayloadOverStep(filters: map<string, Value>, keys: set<string>, k: string)
    ensures PayloadOver(filters, keys + {k}) ==
      if Copied(k, Lookup(filters, k)) then PayloadOver(filters, keys)[k := filters[k]] else PayloadOver(filters, keys)
  {
  }

  /** The payload builder as the action writes it: one conditional assignment per key. */
  method BuildFilterPayload(filters: map<string, Value>) returns (payload: map<string, Value>)
    ensures payload == FilterPayload(filters)
  {
    ghost var seen: set<string> := {};
    payload := map[];
    PayloadOverStep(filters, seen, QUERY);
    if Truthy(Lookup(filters, QUERY)) {
      payload := payload[QUERY := filters[QUERY]];
    }
    seen := seen + {QUERY};
    assert payload == PayloadOver(filters, seen);
    PayloadOverStep(filters, seen, STATUS);
    if Truthy(Lookup(filters, STATUS)) {
      payload := payload[STATUS := filters[STATUS]];
    }
    seen := seen + {STATUS};
    assert payload == PayloadOver(filters, seen);
    PayloadOverStep(filters, seen, PLAN);
    if Truthy(Lookup(filters, PLAN)) {
      payload := payload[PLAN := filters[PLAN]];
    }
    seen := seen + {PLAN};
    assert payload == PayloadOver(filters, seen);
    PayloadOverStep(filters, seen, IS_ASSIGNED);
    if Lookup(filters, IS_ASSIGNED) != Undefined {
      payload := payload[IS_ASSIGNED := filters[IS_ASSIGNED]];
    }
    seen := seen + {IS_ASSIGNED};
    assert payload == PayloadOver(filters, seen);
    PayloadOverStep(filters, seen, CITY);
    if Truthy(Lookup(filters, CITY)) {
      payload := payload[CITY := filters[CITY]];
    }
    seen := seen + {CITY};
    assert payload == PayloadOver(filters, seen);
    PayloadOverStep(filters, seen, MUNICIPAL_CORPORATION);
    if Truthy(Lookup(filters, MUNICIPAL_CORPORATION)) {
      payload := payload[MUNICIPAL_CORPORATION := filters[MUNICIPAL_CORPORATION]];
    }
    seen := seen + {MUNICIPAL_CORPORATION};
    assert payload == PayloadOver(filters, seen);
    PayloadOverStep(filters, seen, DATE_FROM);
    if Truthy(Lookup(filters, DATE_FROM)) {
      payload := payload[DATE_FROM := filters[DATE_FROM]];
    }
    seen := seen + {DATE_FROM};
    assert payload == PayloadOver(filters, seen);
    PayloadOverStep(filters, seen, DATE_TO);
    if Truthy(Lookup(filters, DATE_TO)) {
      payload := payload[DATE_TO := filters[DATE_TO]];
    }
    seen := seen + {DATE_TO};
    assert payload == PayloadOver(filters, seen);
    assert seen == PAYLOAD_KEYS;
  }

  // ---------------------------------------------------------------------------
  // The asynchronous actions' payload creators

  /** The rejection value of a caught error: its message, or the fallback when the message is empty. */
  function FetchErrorReason(message: string): (r: string)
    ensures r != ""
    ensures message != "" ==> r == message
    ensures message == "" ==> r == FETCH_FAILED
  {
    if message != "" then message else FETCH_FAILED
  }

  /** fetchComplaints: the call is skipped without a session, and a missing response or data is an error. */
  function FetchComplaints(filters: map<string, Value>, signedIn: bool, call: Call<Response>): (r: Outcome<FetchResult>)
    ensures r.Fulfilled? <==> signedIn && call.Returned? && call.value.Response? && call.value.data.Some?
    ensures r.Fulfilled? ==> r.payload == FetchResult(call.value.data.value, FilterPayload(filters))
    ensures !signedIn ==> r == Rejected(NO_DATA)
    ensures signedIn && call.Returned? && r.Rejected? ==> r.reason == NO_DATA
    ensures signedIn && call.Threw? ==> r.Rejected? && r.reason != "" && (call.message != "" ==> r.reason == call.message)
    ensures signedIn && call == Threw("") ==> r == Rejected(FETCH_FAILED)
  {
    var payload := FilterPayload(filters);
    if !signedIn then
      Rejected(FetchErrorReason(NO_DATA))
    else match call
      case Threw(m) => Rejected(FetchErrorReason(m))
      case Returned(NoResponse) => Rejected(FetchErrorReason(NO_DATA))
      case Returned(Response(None)) => Rejected(FetchErrorReason(NO_DATA))
      case Returned(Response(Some(data))) => Fulfilled(FetchResult(data, payload))
  }

  /** addComplaintUpdate: only a throwing call rejects; without a session the call is skipped and the action fulfills. */
  function AddComplaintUpdate(complaintId: string, update: Update, signedIn: bool, call: Call<()>): (r: Outcome<UpdateResult>)
    ensures r.Rejected? <==> signedIn && call.Threw?
    ensures r.Rejected? ==> r.reason == call.message
    ensures r.Fulfilled? ==> r.payload.complaintId == complaintId && r.payload.update == update
  {
    if signedIn && call.Threw? then Rejected(call.message)
    else Fulfilled(UpdateResult(complaintId, Update(update.message, update.date)))
  }

  /** The display name recorded on self-assignment: the user's name when truthy, otherwise the e-mail. */
  function AssigneeName(user: Identity): (r: Value)
    ensures Truthy(user.name) ==> r == user.name
    ensures !Truthy(user.name) ==> r == user.email
    ensures Truthy(user.name) || Truthy(user.email) ==> Truthy(r)
  {
    Or(user.name, user.email)
  }

  /** assignComplaintToMe: refuses without a current user, otherwise records the user's id and display name. */
  function AssignComplaintToMe(complaintId: string, currentUser: Option<Identity>, call: Call<()>): (r: Outcome<AssignResult>)
    ensures currentUser.None? ==> r == Rejected(NOT_AUTHENTICATED)
    ensures currentUser.Some? && call.Threw? ==> r == Rejected(call.message)
    ensures r.Fulfilled? <==> currentUser.Some? && call.Returned?
    ensures r.Fulfilled? ==> r.payload == AssignResult(complaintId, currentUser.value.id, AssigneeName(currentUser.value))
  {
    match currentUser
    case None => Rejected(NOT_AUTHENTICATED)
    case Some(user) =>
      if call.Threw? then Rejected(call.message)
      else Fulfilled(AssignResult(complaintId, user.id, Or(user.name, user.email)))
  }

  // ---------------------------------------------------------------------------
  // Locating and changing one complaint of the list

  /** `j` is the index `Array.prototype.find` stops at when looking for `id`. */
  ghost predicate IsFirstMatch(cs: seq<Complaint>, id: string, j: int) {
    0 <= j < |cs| && cs[j].id == id && forall k | 0 <= k < j :: cs[k].id != id
  }

  /** The index of the first complaint whose id is `id`, if any. */
  function FirstMatch(cs: seq<Complaint>, id: string): (r: Option<nat>)
    ensures r.Some? ==> IsFirstMatch(cs, id, r.value)
    ensures r.None? ==> forall k | 0 <= k < |cs| :: cs[k].id != id
  {
    if cs == [] then None
    else if cs[0].id == id then Some(0)
    else match FirstMatch(cs[1..], id)
      case None => None
      case Some(i) => Some(i + 1)
  }

  /** `complaints.find(c => c._id === id)`, as the linear search it is. */
  method FindComplaint(cs: seq<Complaint>, id: string) returns (r: Option<nat>)
    ensures r == FirstMatch(cs, id)
  {
    var i := 0;
    while i < |cs|
      invariant 0 <= i <= |cs|
      invariant forall k | 0 <= k < i :: cs[k].id != id
    {
      if cs[i].id == id {
        return Some(i);
      }
      i := i + 1;
    }
    return None;
  }

  /** The update history of a complaint, an absent list read as empty. */
  function UpdatesOf(c: Complaint): seq<Update> {
    if c.updates.Some? then c.updates.value else []
  }

  /** The complaint after `update` is pushed on its history (created first when absent). */
  function WithUpdate(c: Complaint, update: Update): (r: Complaint)
    ensures r.updates == Some(UpdatesOf(c) + [update])
    ensures r.(updates := c.updates) == c
  {
    var history := if c.updates.Some? then c.updates.value else [];
    c.(updates := Some(history + [update]))
  }

  /** The complaint after self-assignment. */
  function WithAssignee(c: Complaint, assignedTo: string, assignedToName: Value): (r: Complaint)
    ensures r.assignedTo == Str(assignedTo) && r.assignedToName == assignedToName
    ensures r.(assignedTo := c.assignedTo, assignedToName := c.assignedToName) == c
  {
    c.(assignedTo := Str(assignedTo), assignedToName := assignedToName)
  }

  /** The list after the first complaint with id `id` receives `update`; the list is unchanged when none matches. */
  function AppendUpdate(cs: seq<Complaint>, id: string, update: Update): (r: seq<Complaint>)
    ensures |r| == |cs|
    ensures forall j | 0 <= j < |cs| :: r[j] == if IsFirstMatch(cs, id, j) then WithUpdate(cs[j], update) else cs[j]
    ensures (forall j | 0 <= j < |cs| :: cs[j].id != id) ==> r == cs
  {
    match FirstMatch(cs, id)
    case None => cs
    case Some(i) => cs[i := WithUpdate(cs[i], update)]
  }

  /** The list after the first complaint with id `id` is assigned; the list is unchanged when none matches. */
  function AssignFirst(cs: seq<Complaint>, id: string, assignedTo: string, assignedToName: Value): (r: seq<Complaint>)
    ensures |r| == |cs|
    ensures forall j | 0 <= j < |cs| ::
      r[j] == if IsFirstMatch(cs, id, j) then WithAssignee(cs[j], assignedTo, assignedToName) else cs[j]
    ensures (forall j | 0 <= j < |cs| :: cs[j].id != id) ==> r == cs
  {
    match FirstMatch(cs, id)
    case None => cs
    case Some(i) => cs[i := WithAssignee(cs[i], assignedTo, assignedToName)]
  }

  // ---------------------------------------------------------------------------
  // The store

  datatype Pagination = Pagination(currentPage: int, itemsPerPage: nat, totalItems: nat)

  /** Everything the store holds, as one value. */
  datatype StoreState = StoreState(
    complaints: seq<Complaint>,
    loading: bool,
    error: Option<string>,
    filters: map<string, Value>,
    appliedFilters: map<string, Value>,
    pagination: Pagination)

  const ITEMS_PER_PAGE: nat := 10

  /** The complaint store; each method is one reducer case and assigns the fields that case assigns. */
  class ComplaintStore {
    var complaints: seq<Complaint>
    var loading: bool
    var error: Option<string>
    var filters: map<string, Value>
    var appliedFilters: map<string, Value>
    var pagination: Pagination

    function State(): StoreState
      reads this
    {
      StoreState(complaints, loading, error, filters, appliedFilters, pagination)
    }

    /** The page size never changes and the item count is always the length of the loaded list. */
    ghost predicate Valid()
      reads this
    {
      pagination.itemsPerPage == ITEMS_PER_PAGE && pagination.totalItems == |complaints|
    }

    /** The initial state. */
    constructor ()
      ensures Valid()
      ensures State() == StoreState([], false, None, map[], map[], Pagination(1, ITEMS_PER_PAGE, 0))
    {
      complaints := [];
      loading := false;
      error := None;
      filters := map[];
      appliedFilters := map[];
      pagination := Pagination(1, ITEMS_PER_PAGE, 0);
    }

    method SetFilters(payload: map<string, Value>)
      requires Valid()
      modifies this
      ensures Valid()
      ensures State() == old(State()).(filters := payload)
    {
      filters := payload;
    }

    method SetAppliedFilters(payload: map<string, Value>)
      requires Valid()
      modifies this
      ensures Valid()
      ensures State() == old(State()).(appliedFilters := payload)
    {
      appliedFilters := payload;
    }

    method SetCurrentPage(page: int)
      requires Valid()
      modifies this
      ensures Valid()
      ensures State() == old(State()).(pagination := old(pagination).(currentPage := page))
    {
      pagination := pagination.(currentPage := page);
    }

    /** Empties both filter objects; the current page is left alone. */
    method ClearFilters()
      requires Valid()
      modifies this
      ensures Valid()
      ensures State() == old(State()).(filters := map[], appliedFilters := map[])
    {
      filters := map[];
      appliedFilters := map[];
    }

    method ClearError()
      requires Valid()
      modifies this
      ensures Valid()
      ensures State() == old(State()).(error := None)
    {
      error := None;
    }

    method FetchPending()
      requires Valid()
      modifies this
      ensures Valid()
      ensures State() == old(State()).(loading := true, error := None)
    {
      loading := true;
      error := None;
    }

    /** Replaces the list, counts it, records the payload that was sent; the page, page size and applied filters stay. */
    method FetchFulfilled(result: FetchResult)
      requires Valid()
      modifies this
      ensures Valid()
      ensures State() == old(State()).(
        loading := false,
        complaints := result.complaints,
        pagination := old(pagination).(totalItems := |result.complaints|),
        filters := result.filters)
    {
      loading := false;
      complaints := result.complaints;
      pagination := pagination.(totalItems := |result.complaints|);
      filters := result.filters;
    }

    /** A failed fetch keeps the previously loaded list. */
    method FetchRejected(reason: string)
      requires Valid()
      modifies this
      ensures Valid()
      ensures State() == old(State()).(loading := false, error := Some(reason))
    {
      loading := false;
      error := Some(reason);
    }

    method AddUpdatePending()
      requires Valid()
      modifies this
      ensures Valid()
      ensures State() == old(State()).(loading := true, error := None)
    {
      loading := true;
      error := None;
    }

    /** Pushes the update on the first complaint whose id matches, creating its history when absent. */
    method AddUpdateFulfilled(result: UpdateResult)
      requires Valid()
      modifies this
      ensures Valid()
      ensures State() == old(State()).(
        loading := false,
        complaints := AppendUpdate(old(complaints), result.complaintId, result.update))
    {
      loading := false;
      var found := FindComplaint(complaints, result.complaintId);
      if found.Some? {
        var i := found.value;
        var complaint := complaints[i];
        if complaint.updates.None? {
          complaint := complaint.(updates := Some([]));
        }
        complaint := complaint.(updates := Some(complaint.updates.value + [result.update]));
        complaints := complaints[i := complaint];
      }
    }

    method AddUpdateRejected(reason: string)
      requires Valid()
      modifies this
      ensures Valid()
      ensures State() == old(State()).(loading := false, error := Some(reason))
    {
      loading := false;
      error := Some(reason);
    }

    method AssignPending()
      requires Valid()
      modifies this
      ensures Valid()
      ensures State() == old(State()).(loading := true, error := None)
    {
      loading := true;
      error := None;
    }

    /** Sets assignedTo and assignedToName on the first complaint whose id matches. */
    method AssignFulfilled(result: AssignResult)
      requires Valid()
      modifies this
      ensures Valid()
      ensures State() == old(State()).(
        loading := false,
        complaints := AssignFirst(old(complaints), result.complaintId, result.assignedTo, result.assignedToName))
    {
      loading := false;
      var found := FindComplaint(complaints, result.complaintId);
      if found.Some? {
        var i := found.value;
        complaints := complaints[i := complaints[i].(assignedTo := Str(result.assignedTo), assignedToName := result.assignedToName)];
      }
    }

    method AssignRejected(reason: string)
      requires Valid()
      modifies this
      ensures Valid()
      ensures State() == old(State()).(loading := false, error := Some(reason))
    {
      loading := false;
      error := Some(reason);
    }
  }

  // ---------------------------------------------------------------------------
  // Properties across several steps

  /** Pushing an update keeps every id, so the complaint found first stays the one found first. */
  lemma AppendUpdateKeepsIds(cs: seq<Complaint>, id: string, update: Update, j: int)
    requires IsFirstMatch(cs, id, j)
    ensures IsFirstMatch(AppendUpdate(cs, id, update), id, j)
  {
    var r := AppendUpdate(cs, id, update);
    assert r[j] == WithUpdate(cs[j], update);
    forall k | 0 <= k < j ensures r[k].id != id {
      assert r[k] == cs[k];
    }
  }

  /** Two updates pushed in turn on a complaint land after its earlier history, in the order they were added. */
  lemma TwoUpdatesKeepOrder(cs: seq<Complaint>, id: string, u1: Update, u2: Update, j: int)
    requires IsFirstMatch(cs, id, j)
    ensures AppendUpdate(AppendUpdate(cs, id, u1), id, u2)[j].updates == Some(UpdatesOf(cs[j]) + [u1, u2])
  {
    var once := AppendUpdate(cs, id, u1);
    AppendUpdateKeepsIds(cs, id, u1, j);
    assert once[j].updates == Some(UpdatesOf(cs[j]) + [u1]);
    assert UpdatesOf(once[j]) + [u2] == UpdatesOf(cs[j]) + [u1, u2];
  }

  /** The first update of a complaint that had no history makes a one-element history. */
  lemma FirstUpdateStartsHistory(cs: seq<Complaint>, id: string, update: Update, j: int)
    requires IsFirstMatch(cs, id, j) && cs[j].updates.None?
    ensures AppendUpdate(cs, id, update)[j].updates == Some([update])
  {
    assert UpdatesOf(cs[j]) + [update] == [update];
  }

  /** Self-assignment as a whole: the action's outcome folded into the store touches only the first matching complaint. */
  lemma AssignOnlyTouchesTarget(cs: seq<Complaint>, complaintId: string, user: Identity, j: int)
    requires 0 <= j < |cs|
    ensures var r := AssignFirst(cs, complaintId, user.id, AssigneeName(user));
      && (IsFirstMatch(cs, complaintId, j) ==> r[j].assignedTo == Str(user.id) && r[j].assignedToName == AssigneeName(user))
      && (!IsFirstMatch(cs, complaintId, j) ==> r[j] == cs[j])
  {
  }
}
