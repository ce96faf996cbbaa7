/** The user editor dialog (`src/components/EditUserModal.tsx`): the form
    it starts from, one field changed per keystroke, the snake_case payload
    it saves, and what a save's outcome does to the dialog. */
module EditUserModal {
  import opened Common

  /** The `user` prop; absent columns are `None`. */
  datatype ModalUser = ModalUser(
    id: string, email: string, username: string, role: string,
    fullName: Option<string>, phoneNumber: Option<string>,
    licenseNumber: Option<string>, licenseExpiryDate: Option<string>)

  datatype Form = Form(fullName: string, phoneNumber: string, licenseNumber: string, licenseExpiryDate: string)

  /** `v || ''`. */
  function OrBlank(v: Option<string>): string {
    if v.Some? then v.value else ""
  }

  /** The initial `formData`; with no user every field is `''`. */
  function InitialForm(user: Option<ModalUser>): (f: Form)
    ensures user.None? ==> f == Form("", "", "", "")
    ensures user.Some? ==>
      (f.fullName == OrBlank(user.value.fullName) && f.phoneNumber == OrBlank(user.value.phoneNumber)
       && f.licenseNumber == OrBlank(user.value.licenseNumber))
    ensures user.Some? && user.value.licenseExpiryDate.Some? && user.value.licenseExpiryDate.value != "" ==>
      f.licenseExpiryDate == BeforeT(user.value.licenseExpiryDate.value)
    ensures user.Some? && (user.value.licenseExpiryDate.None? || user.value.licenseExpiryDate.value == "") ==>
      f.licenseExpiryDate == ""
    ensures 'T' !in f.licenseExpiryDate
  {
    if user.None? then Form("", "", "", "")
    else
      var u := user.value;
      var expiry := if u.licenseExpiryDate.Some? && u.licenseExpiryDate.value != "" then BeforeT(u.licenseExpiryDate.value) else "";
      Form(OrBlank(u.fullName), OrBlank(u.phoneNumber), OrBlank(u.licenseNumber), expiry)
  }

  /** A null user renders nothing. */
  predicate Renders(user: Option<ModalUser>) {
    user.Some?
  }

  /** The `name` of the four inputs. */
  datatype Field = FullName | PhoneNumber | LicenseNumber | LicenseExpiryDate

  function Get(f: Form, name: Field): string {
    match name
    case FullName => f.fullName
    case PhoneNumber => f.phoneNumber
    case LicenseNumber => f.licenseNumber
    case LicenseExpiryDate => f.licenseExpiryDate
  }

  /** `handleChange`: `{ ...prev, [name]: value }`. */
  function HandleChange(prev: Form, name: Field, value: string): (next: Form)
    ensures Get(next, name) == value
    ensures forall other: Field :: other != name ==> Get(next, other) == Get(prev, other)
  {
    match name
    case FullName => prev.(fullName := value)
    case PhoneNumber => prev.(phoneNumber := value)
    case LicenseNumber => prev.(licenseNumber := value)
    case LicenseExpiryDate => prev.(licenseExpiryDate := value)
  }

  /** The argument of `onSave`. */
  function SavePayload(f: Form): (p: map<string, string>)
    ensures p.Keys == {"full_name", "phone_number", "license_number", "license_expiry_date"}
  {
    map["full_name" := f.fullName, "phone_number" := f.phoneNumber,
        "license_number" := f.licenseNumber, "license_expiry_date" := f.licenseExpiryDate]
  }

  /** The payload key of each input. */
  function PayloadKey(name: Field): string {
    match name
    case FullName => "full_name"
    case PhoneNumber => "phone_number"
    case LicenseNumber => "license_number"
    case LicenseExpiryDate => "license_expiry_date"
  }

  /** Reads a payload back into a form. */
  function FormOfPayload(p: map<string, string>): Form
    requires p.Keys == {"full_name", "phone_number", "license_number", "license_expiry_date"}
  {
    Form(p["full_name"], p["phone_number"], p["license_number"], p["license_expiry_date"])
  }

  /** The payload carries the current form values, each under its own key. */
  lemma SavePayloadRoundTrip(f: Form)
    ensures FormOfPayload(SavePayload(f)) == f
  {
    assert "full_name" != "phone_number" && "full_name" != "license_number";
    assert "full_name" != "license_expiry_date" && "phone_number" != "license_number";
    assert "phone_number" != "license_expiry_date" && "license_number" != "license_expiry_date";
  }

  /** After typing into one input, the payload differs from the previous one
      in that input's key only. */
  lemma ChangeThenSave(prev: Form, name: Field, value: string, key: string)
    requires key in SavePayload(prev)
    requires key != PayloadKey(name)
    ensures SavePayload(HandleChange(prev, name, value))[key] == SavePayload(prev)[key]
    ensures SavePayload(HandleChange(prev, name, value))[PayloadKey(name)] == value
  {
  }

  /** How `onSave` ended: it resolved, or it threw (with a message when the
      thrown value is an `Error`). */
  datatype SaveOutcome = Saved | Threw(message: Option<string>)

  /** What `handleSubmit` leaves: whether `onClose` ran, and the error. */
  datatype SubmitResult = SubmitResult(closed: bool, error: string, loading: bool)

  /** `onClose` runs only after a successful save; a failure keeps the
      dialog open with the error. */
  function AfterSubmit(outcome: SaveOutcome): (r: SubmitResult)
    ensures !r.loading
    ensures r.closed <==> outcome.Saved?
    ensures outcome.Saved? ==> r.error == ""
    ensures outcome.Threw? ==>
      r.error == (if outcome.message.Some? then outcome.message.value else "Failed to update user")
  {
    match outcome
    case Saved => SubmitResult(true, "", false)
    case Threw(m) => SubmitResult(false, if m.Some? then m.value else "Failed to update user", false)
  }
}
