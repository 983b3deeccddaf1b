/**
  The user directory view: the table's display fallbacks and badges, the
  details modal, and the "add to your team" form with its validation.
*/
module UsersPage {
  import opened JsValues
  import opened Badges
  import opened UsersSlice

  // ---------------------------------------------------------------------------
  // Display fallbacks

  /** The fields of the custom-data block that the view reads. */
  datatype CustomKey = UserTypeKey | EmployerKey | ScoreKey | PhoneKey | CountryKey | NameKey

  function Get(d: CustomData, key: CustomKey): Value {
    match key
    case UserTypeKey => d.userType
    case EmployerKey => d.userEmployer
    case ScoreKey => d.score
    case PhoneKey => d.phone
    case CountryKey => d.country
    case NameKey => d.name
  }

  /** `user.customData?.<field>`: undefined when the custom-data block is absent. */
  function CustomField(user: User, key: CustomKey): Value {
    if user.customData.Some? then Get(user.customData.value, key) else Undefined
  }

  /** The name shown: the account name, else the custom-data name. */
  function DisplayName(user: User): (r: Value)
    ensures Truthy(user.name) ==> r == user.name
    ensures !Truthy(user.name) ==> r == CustomField(user, NameKey)
  {
    Or(user.name, CustomField(user, NameKey))
  }

  /** A custom-data field, or `fallback` when it is falsy or the block is absent. */
  function CustomOr(user: User, key: CustomKey, fallback: string): (r: Value)
    requires fallback != ""
    ensures Truthy(r)
    ensures Truthy(CustomField(user, key)) ==> r == CustomField(user, key)
    ensures !Truthy(CustomField(user, key)) ==> r == Str(fallback)
    ensures r != Str(fallback) ==> user.customData.Some? && r == Get(user.customData.value, key)
    ensures user.customData.None? ==> r == Str(fallback)
  {
    Or(CustomField(user, key), Str(fallback))
  }

  function UserTypeLabel(user: User): (r: Value)
    ensures Truthy(r)
    ensures Truthy(CustomField(user, UserTypeKey)) ==> r == CustomField(user, UserTypeKey)
    ensures !Truthy(CustomField(user, UserTypeKey)) ==> r == Str("Unknown")
    ensures user.customData.None? ==> r == Str("Unknown")
  {
    CustomOr(user, UserTypeKey, "Unknown")
  }

  function EmployerLabel(user: User): (r: Value)
    ensures Truthy(r)
    ensures Truthy(CustomField(user, EmployerKey)) ==> r == CustomField(user, EmployerKey)
    ensures !Truthy(CustomField(user, EmployerKey)) ==> r == Str("N/A")
    ensures user.customData.None? ==> r == Str("N/A")
  {
    CustomOr(user, EmployerKey, "N/A")
  }

  function PhoneLabel(user: User): (r: Value)
    ensures Truthy(r)
    ensures Truthy(CustomField(user, PhoneKey)) ==> r == CustomField(user, PhoneKey)
    ensures !Truthy(CustomField(user, PhoneKey)) ==> r == Str("N/A")
    ensures user.customData.None? ==> r == Str("N/A")
  {
    CustomOr(user, PhoneKey, "N/A")
  }

  function CountryLabel(user: User): (r: Value)
    ensures Truthy(r)
    ensures Truthy(CustomField(user, CountryKey)) ==> r == CustomField(user, CountryKey)
    ensures !Truthy(CustomField(user, CountryKey)) ==> r == Str("N/A")
    ensures user.customData.None? ==> r == Str("N/A")
  {
    CustomOr(user, CountryKey, "N/A")
  }

  function ScoreLabel(user: User): (r: Value)
    ensures Truthy(r)
    ensures Truthy(CustomField(user, ScoreKey)) ==> r == CustomField(user, ScoreKey)
    ensures !Truthy(CustomField(user, ScoreKey)) ==> r == Str("N/A")
    ensures user.customData.None? ==> r == Str("N/A")
  {
    CustomOr(user, ScoreKey, "N/A")
  }

  /** A score of zero is falsy, so it is shown as N/A exactly as a missing score is. */
  lemma ZeroScoreShowsNotAvailable(user: User)
    requires user.customData.Some? && user.customData.value.score == Num(0.0)
    ensures ScoreLabel(user) == Str("N/A")
  {
  }

  /** A positive score is shown as it is. */
  lemma PositiveScoreShown(user: User, x: real)
    requires user.customData.Some? && user.customData.value.score == Num(x) && x > 0.0
    ensures ScoreLabel(user) == Num(x)
  {
  }

  /** The user-type badge: blue for advocates, green for corporation employees, grey otherwise. */
  function UserTypeColor(user: User): (r: Color)
    ensures r == Blue <==> CustomField(user, UserTypeKey) == Str("Advocate")
    ensures r == Green <==> CustomField(user, UserTypeKey) == Str("mcEmployee")
    ensures r in {Blue, Green, Gray}
  {
    var userType := CustomField(user, UserTypeKey);
    if userType == Str("Advocate") then Blue
    else if userType == Str("mcEmployee") then Green
    else Gray
  }

  /** The status badge: green "Active" when the status is truthy, red "Inactive" otherwise. */
  function StatusBadge(user: User): (r: (Color, string))
    ensures r.0 == Green <==> Truthy(user.status)
    ensures r == (Green, "Active") || r == (Red, "Inactive")
  {
    if Truthy(user.status) then (Green, "Active") else (Red, "Inactive")
  }

  /** The verification line of the details modal. */
  function VerificationLabel(user: User): (r: string)
    ensures r == "Verified" <==> Truthy(user.isVerified)
    ensures r == "Verified" || r == "Not Verified"
  {
    if Truthy(user.isVerified) then "Verified" else "Not Verified"
  }

  /** A user with no custom-data block shows every fallback and a grey type badge. */
  lemma NoCustomDataShowsFallbacks(user: User)
    requires user.customData.None?
    ensures UserTypeLabel(user) == Str("Unknown") && UserTypeColor(user) == Gray
    ensures EmployerLabel(user) == Str("N/A") && ScoreLabel(user) == Str("N/A")
    ensures PhoneLabel(user) == Str("N/A") && CountryLabel(user) == Str("N/A")
  {
  }

  // ---------------------------------------------------------------------------
  // The add-to-team form

  datatype FormField = Name | Email | Organization | Role

  datatype TeamForm = TeamForm(name: string, email: string, organization: string, role: string)

  const BLANK_FORM := TeamForm("", "", "", "")

  function FieldOf(form: TeamForm, field: FormField): string {
    match field
    case Name => form.name
    case Email => form.email
    case Organization => form.organization
    case Role => form.role
  }

  /** `{ ...prev, [field]: value }`: the field is set and the others are kept. */
  function WithField(form: TeamForm, field: FormField, value: string): (r: TeamForm)
    ensures FieldOf(r, field) == value
    ensures forall f | f != field :: FieldOf(r, f) == FieldOf(form, f)
  {
    match field
    case Name => form.(name := value)
    case Email => form.(email := value)
    case Organization => form.(organization := value)
    case Role => form.(role := value)
  }

  /** The form passes validation when no field is the empty string. */
  predicate Complete(form: TeamForm) {
    form.name != "" && form.email != "" && form.organization != "" && form.role != ""
  }

  /** Validation fails exactly when some field is empty; white space counts as filled in. */
  lemma CompleteIffNoEmptyField(form: TeamForm)
    ensures Complete(form) <==> forall f :: FieldOf(form, f) != ""
  {
    if !Complete(form) {
      if form.name == "" { assert FieldOf(form, Name) == ""; }
      else if form.email == "" { assert FieldOf(form, Email) == ""; }
      else if form.organization == "" { assert FieldOf(form, Organization) == ""; }
      else { assert FieldOf(form, Role) == ""; }
    }
  }

  /** Filling in the four fields one after another always passes validation. */
  lemma FillingEveryFieldCompletes(name: string, email: string, organization: string, role: string)
    requires name != "" && email != "" && organization != "" && role != ""
    ensures Complete(WithField(WithField(WithField(WithField(BLANK_FORM, Name, name), Email, email), Organization, organization), Role, role))
  {
  }

  /** The view's own state: the selected user, and the add-to-team modal with its form. */
  class Page {
    var selectedUser: Option<User>
    var showAddToTeam: bool
    var addToTeamForm: TeamForm

    /** No user selected, the team modal closed, the form blank. */
    constructor ()
      ensures selectedUser == None && !showAddToTeam && addToTeamForm == BLANK_FORM
    {
      selectedUser := None;
      showAddToTeam := false;
      addToTeamForm := BLANK_FORM;
    }

    /** Clicking a row opens the details modal for that user. */
    method HandleRowClick(user: User)
      modifies this
      ensures selectedUser == Some(user)
      ensures showAddToTeam == old(showAddToTeam) && addToTeamForm == old(addToTeamForm)
    {
      selectedUser := Some(user);
    }

    method CloseModal()
      modifies this
      ensures selectedUser == None
      ensures showAddToTeam == old(showAddToTeam) && addToTeamForm == old(addToTeamForm)
    {
      selectedUser := None;
    }

    /** Opening the team modal keeps whatever the form held. */
    method HandleAddToTeam()
      modifies this
      ensures showAddToTeam
      ensures selectedUser == old(selectedUser) && addToTeamForm == old(addToTeamForm)
    {
      showAddToTeam := true;
    }

    /** Closing the team modal also blanks the form. */
    method CloseAddToTeam()
      modifies this
      ensures !showAddToTeam && addToTeamForm == BLANK_FORM
      ensures selectedUser == old(selectedUser)
    {
      showAddToTeam := false;
      addToTeamForm := BLANK_FORM;
    }

    method HandleFormChange(field: FormField, value: string)
      modifies this
      ensures addToTeamForm == WithField(old(addToTeamForm), field, value)
      ensures selectedUser == old(selectedUser) && showAddToTeam == old(showAddToTeam)
    {
      addToTeamForm := WithField(addToTeamForm, field, value);
    }

    /**
      Submitting accepts the form only when every field is filled in; an
      accepted form closes the modal and is blanked, a rejected one stays as it is.
    */
    method HandleSubmit() returns (accepted: Option<TeamForm>)
      modifies this
      ensures accepted.Some? <==> Complete(old(addToTeamForm))
      ensures accepted.Some? ==> accepted.value == old(addToTeamForm) && !showAddToTeam && addToTeamForm == BLANK_FORM
      ensures accepted.None? ==> showAddToTeam == old(showAddToTeam) && addToTeamForm == old(addToTeamForm)
      ensures selectedUser == old(selectedUser)
    {
      if !Complete(addToTeamForm) {
        return None;
      }
      accepted := Some(addToTeamForm);
      CloseAddToTeam();
    }
  }
}
