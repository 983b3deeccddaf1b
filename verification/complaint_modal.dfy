/**
  The complaint detail modal: the badge classifiers, the tab selection and
  the add-update form, whose submit dispatches the add-update action into
  the complaint store.
*/
module ComplaintModal {
  import opened JsValues
  import opened Badges
  import opened ComplaintsSlice

  datatype Tab = Details | Updates | Media

  /** The status badge's colour: green when resolved, yellow while in process, gray otherwise. */
  function StatusColor(status: Value): (r: Color)
    ensures r == Green <==> status == Str("resolved")
    ensures r == Yellow <==> status == Str("in process")
    ensures r == Green || r == Yellow || r == Gray
  {
    match status
    case Str("resolved") => Green
    case Str("in process") => Yellow
    case _ => Gray
  }

  /** The status badge's text: the status itself when truthy, otherwise "Pending"; never blank. */
  function StatusText(status: Value): (r: Value)
    ensures Truthy(r)
    ensures Truthy(status) ==> r == status
    ensures !Truthy(status) ==> r == Str("Pending")
  {
    Or(status, Str("Pending"))
  }

  /** The plan badge's colour: purple for pro+, blue for pro, gray otherwise. */
  function PlanColor(plan: Value): (r: Color)
    ensures r == Purple <==> plan == Str("pro+")
    ensures r == Blue <==> plan == Str("pro")
    ensures r == Purple || r == Blue || r == Gray
  {
    match plan
    case Str("pro+") => Purple
    case Str("pro") => Blue
    case _ => Gray
  }

  /** The count on the Updates tab: the length of the history, 0 when it is absent. */
  function UpdatesCount(c: Complaint): (r: nat)
    ensures r == |UpdatesOf(c)|
    ensures c.updates.None? ==> r == 0
  {
    match c.updates
    case Some(history) => |history|
    case None => 0
  }

  /** Pushing an update on a complaint raises its shown count by one. */
  lemma UpdatesCountAfterAppend(cs: seq<Complaint>, id: string, update: Update, j: int)
    requires IsFirstMatch(cs, id, j)
    ensures UpdatesCount(AppendUpdate(cs, id, update)[j]) == UpdatesCount(cs[j]) + 1
  {
  }

  /** Whether the add-update submit button is disabled: a blank message, or an action in flight. */
  function SubmitDisabled(newUpdate: string, loading: bool): (r: bool)
    ensures r <==> AllWhitespace(newUpdate) || loading
  {
    TrimBlankIff(newUpdate);
    Trim(newUpdate) == "" || loading
  }

  /** The modal's own state, over the complaint it was opened on and the store it dispatches to. */
  class Modal {
    const complaint: Complaint
    const store: ComplaintStore
    var activeTab: Tab
    var showAddUpdate: bool
    var newUpdate: string

    /** Opens on the details tab with the add-update form hidden and empty. */
    constructor (complaint: Complaint, store: ComplaintStore)
      ensures this.complaint == complaint && this.store == store
      ensures activeTab == Details && !showAddUpdate && newUpdate == ""
    {
      this.complaint := complaint;
      this.store := store;
      activeTab := Details;
      showAddUpdate := false;
      newUpdate := "";
    }

    /** A tab button: the active tab becomes exactly the one clicked. */
    method SelectTab(tab: Tab)
      modifies this
      ensures activeTab == tab
      ensures showAddUpdate == old(showAddUpdate) && newUpdate == old(newUpdate)
    {
      activeTab := tab;
    }

    /** The Add Update / Cancel toggle above the history. */
    method ToggleAddUpdate()
      modifies this
      ensures showAddUpdate == !old(showAddUpdate)
      ensures activeTab == old(activeTab) && newUpdate == old(newUpdate)
    {
      showAddUpdate := !showAddUpdate;
    }

    /** Typing in the message box. */
    method EditUpdate(text: string)
      modifies this
      ensures newUpdate == text
      ensures activeTab == old(activeTab) && showAddUpdate == old(showAddUpdate)
    {
      newUpdate := text;
    }

    /** The Cancel button of the form: clears the text and hides the form. */
    method HandleCancelUpdate()
      modifies this
      ensures newUpdate == "" && !showAddUpdate
      ensures activeTab == old(activeTab)
    {
      newUpdate := "";
      showAddUpdate := false;
    }

    /**
      The form's submit. A blank message does nothing. Otherwise the trimmed
      message, dated `today`, is sent for this complaint's id; on success the
      form is cleared and hidden, on failure it is kept as it was.
    */
    method HandleAddUpdate(today: string, signedIn: bool, call: Call<()>) returns (sent: Option<Update>)
      requires store.Valid()
      modifies this, store
      ensures store.Valid()
      ensures activeTab == old(activeTab)
      ensures sent.None? <==> AllWhitespace(old(newUpdate))
      ensures sent.None? ==>
        && newUpdate == old(newUpdate) && showAddUpdate == old(showAddUpdate)
        && store.State() == old(store.State())
      ensures sent.Some? ==> sent.value == Update(Trim(old(newUpdate)), today)
      ensures sent.Some? && AddComplaintUpdate(complaint.id, sent.value, signedIn, call).Fulfilled? ==>
        && newUpdate == "" && !showAddUpdate
        && store.State() == old(store.State()).(
             loading := false,
             error := None,
             complaints := AppendUpdate(old(store.complaints), complaint.id, sent.value))
      ensures sent.Some? && AddComplaintUpdate(complaint.id, sent.value, signedIn, call).Rejected? ==>
        && newUpdate == old(newUpdate) && showAddUpdate == old(showAddUpdate)
        && store.State() == old(store.State()).(loading := false, error := Some(call.message))
    {
      TrimBlankIff(newUpdate);
      var message := Trim(newUpdate);
      if message == "" {
        return None;
      }
      var update := Update(message, today);
      sent := Some(update);
      store.AddUpdatePending();
      var outcome := AddComplaintUpdate(complaint.id, update, signedIn, call);
      match outcome {
        case Fulfilled(result) =>
          store.AddUpdateFulfilled(result);
          newUpdate := "";
          showAddUpdate := false;
        case Rejected(reason) =>
          store.AddUpdateRejected(reason);
      }
    }
  }
}
