/** The superadmin's user table (`src/components/SuperadminDashboard.jsx`):
    the fetched users normalised, searched and counted, and the one-cell-at-a-
    time editor that saves a single field. */
module SuperadminDashboard {
  import opened Common
  import opened PhoneFormat

  /** A user as `GET /api/users` returns it; a `null` column is `None`. */
  datatype ApiUser = ApiUser(
    id: nat,
    email: string,
    username: string,
    role: string,
    verified: bool,
    createdAt: int,
    fullName: Option<string>,
    phoneNumber: Option<string>,
    licenseNumber: Option<string>,
    licenseExpiryDate: Option<string>)

  /** A user after `fetchUsers`' normalisation. */
  datatype SafeUser = SafeUser(
    id: nat,
    email: string,
    username: string,
    role: string,
    verified: bool,
    createdAt: int,
    fullName: string,
    phoneNumber: string,
    licenseNumber: string,
    licenseExpiryDate: string)

  /** `u.x || ''`: a missing or empty value becomes `''`. */
  function OrEmpty(v: Option<string>): (s: string)
    ensures v.None? ==> s == ""
    ensures v.Some? ==> s == v.value
  {
    v.GetOr("")
  }

  /** `{ ...u, fullName: u.fullName || '', ... }`. */
  function Normalize(u: ApiUser): (r: SafeUser)
    ensures r.id == u.id && r.email == u.email && r.username == u.username && r.role == u.role
    ensures r.verified == u.verified && r.createdAt == u.createdAt
    ensures r.fullName == OrEmpty(u.fullName) && r.phoneNumber == OrEmpty(u.phoneNumber)
    ensures r.licenseNumber == OrEmpty(u.licenseNumber) && r.licenseExpiryDate == OrEmpty(u.licenseExpiryDate)
  {
    SafeUser(u.id, u.email, u.username, u.role, u.verified, u.createdAt,
             OrEmpty(u.fullName), OrEmpty(u.phoneNumber), OrEmpty(u.licenseNumber), OrEmpty(u.licenseExpiryDate))
  }

  // ---------------------------------------------------------------------
  // Search and counters
  // ---------------------------------------------------------------------

  /** Name or e-mail contain the term ignoring case, or the phone contains it
      as typed. */
  predicate MatchesSearch(u: SafeUser, term: string) {
    IncludesIgnoringCase(u.fullName, term) || IncludesIgnoringCase(u.email, term) || Includes(u.phoneNumber, term)
  }

  predicate MatchesRole(u: SafeUser, filterRole: string) {
    filterRole == "all" || u.role == filterRole
  }

  function KeepTest(term: string, filterRole: string): SafeUser -> bool {
    (u: SafeUser) => MatchesSearch(u, term) && MatchesRole(u, filterRole)
  }

  function FilteredUsers(users: seq<SafeUser>, term: string, filterRole: string): seq<SafeUser> {
    Filter(users, KeepTest(term, filterRole))
  }

  /** A user is listed exactly when it matches both the search and the role
      filter, and the list keeps the table's order. */
  lemma FilteredUsersExactly(users: seq<SafeUser>, term: string, filterRole: string, u: SafeUser)
    ensures u in FilteredUsers(users, term, filterRole) <==> u in users && MatchesSearch(u, term) && MatchesRole(u, filterRole)
    ensures SubsequenceOf(FilteredUsers(users, term, filterRole), users)
  {
    FilterMembers(users, KeepTest(term, filterRole), u);
    FilterIsSubsequence(users, KeepTest(term, filterRole));
  }

  /** With an empty search and the role filter on `'all'` every user shows. */
  lemma FilteredUsersUnfiltered(users: seq<SafeUser>)
    ensures FilteredUsers(users, "", "all") == users
  {
    forall i | 0 <= i < |users|
      ensures KeepTest("", "all")(users[i])
    {
      IncludesEmpty(ToLower(users[i].fullName));
    }
    FilterAll(users, KeepTest("", "all"));
  }

  datatype Stats = Stats(total: nat, admins: nat, users: nat, verified: nat, unverified: nat)

  function HasRole(role: string): SafeUser -> bool {
    (u: SafeUser) => u.role == role
  }

  function IsVerified(): SafeUser -> bool {
    (u: SafeUser) => u.verified
  }

  function IsUnverified(): SafeUser -> bool {
    (u: SafeUser) => !u.verified
  }

  function StatsOf(users: seq<SafeUser>): (st: Stats)
    ensures st.total == |users|
  {
    Stats(|users|, Count(users, HasRole("admin")), Count(users, HasRole("user")),
          Count(users, IsVerified()), Count(users, IsUnverified()))
  }

  /** Every user is verified or not, and nobody is both an admin and a user. */
  lemma StatsAddUp(users: seq<SafeUser>)
    ensures StatsOf(users).verified + StatsOf(users).unverified == StatsOf(users).total
    ensures StatsOf(users).admins + StatsOf(users).users <= StatsOf(users).total
  {
    FilterPartition(users, IsVerified(), IsUnverified());
    FilterDisjointCount(users, HasRole("admin"), HasRole("user"));
  }

  // ---------------------------------------------------------------------
  // The cell editor
  // ---------------------------------------------------------------------

  datatype Field = FullName | PhoneNumber | LicenseNumber | LicenseExpiryDate

  function FieldName(f: Field): string {
    match f
    case FullName => "fullName"
    case PhoneNumber => "phoneNumber"
    case LicenseNumber => "licenseNumber"
    case LicenseExpiryDate => "licenseExpiryDate"
  }

  datatype EditingCell = EditingCell(userId: nat, field: Field, value: string)

  /** The value an edit starts from; a date keeps its part before `'T'`. */
  function StartValue(u: SafeUser, f: Field): (v: string)
    ensures f == FullName ==> v == u.fullName
    ensures f == PhoneNumber ==> v == u.phoneNumber
    ensures f == LicenseNumber ==> v == u.licenseNumber
    ensures f == LicenseExpiryDate ==> v == BeforeT(u.licenseExpiryDate) && 'T' !in v
  {
    match f
    case FullName => u.fullName
    case PhoneNumber => u.phoneNumber
    case LicenseNumber => u.licenseNumber
    case LicenseExpiryDate => if u.licenseExpiryDate != "" then BeforeT(u.licenseExpiryDate) else ""
  }

  const MSG_ALL_FIELDS: string := "All fields are required"

  /** The error a failed save shows; the old 'All fields are required' is
      hidden. */
  function SaveError(serverError: string): (e: string)
    ensures serverError == MSG_ALL_FIELDS ==> e == ""
    ensures serverError != MSG_ALL_FIELDS ==>
      e == "Error updating user: " + (if serverError != "" then serverError else "Failed to update user")
  {
    var msg := if serverError != "" then serverError else "Failed to update user";
    if msg != MSG_ALL_FIELDS then "Error updating user: " + msg else ""
  }

  /** The fixed segments of the PUT routes of `backend/server.ts`; each is
      followed by one `:id` segment. */
  const PUT_ROUTES: seq<seq<string>> := [["api", "user"], ["api", "firearms"]]

  /** A PUT to `prefix/<id>` reaches a handler. */
  predicate ServedPut(prefix: seq<string>) {
    prefix in PUT_ROUTES
  }

  /** As written, `handleCellSave` puts to `/api/users/<id>`. */
  function SaveRouteAsWritten(): seq<string> {
    ["api", "users"]
  }

  /** No PUT route of the server has that prefix, so every save misses. */
  lemma SaveRouteAsWrittenUnserved()
    ensures !ServedPut(SaveRouteAsWritten())
  {
    assert SaveRouteAsWritten() != PUT_ROUTES[0] by {
      assert SaveRouteAsWritten()[1] != PUT_ROUTES[0][1];
    }
    assert SaveRouteAsWritten() != PUT_ROUTES[1] by {
      assert SaveRouteAsWritten()[1] != PUT_ROUTES[1][1];
    }
  }

  /** Corrected: the profile update route `/api/user/:id`. */
  function SaveRoute(): (prefix: seq<string>)
    ensures ServedPut(prefix) && prefix == PUT_ROUTES[0]
  {
    ["api", "user"]
  }

  /** The PUT a save sends: the route prefix, the user and `{ [field]: newValue }`. */
  datatype UpdateCall = UpdateCall(route: seq<string>, userId: nat, body: map<string, string>)

  class Dashboard {
    var users: seq<SafeUser>
    var editingCell: Option<EditingCell>
    var error: string
    var searchTerm: string
    var filterRole: string

    constructor ()
      ensures users == [] && editingCell.None? && error == "" && searchTerm == "" && filterRole == "all"
    {
      users, editingCell, error, searchTerm, filterRole := [], None, "", "", "all";
    }

    /** The rows on screen. */
    function Visible(): seq<SafeUser>
      reads this
    {
      FilteredUsers(users, searchTerm, filterRole)
    }

    /** A successful `fetchUsers`. */
    method Loaded(data: seq<ApiUser>)
      modifies this
      ensures users == Map(data, Normalize) && error == ""
      ensures editingCell == old(editingCell) && searchTerm == old(searchTerm) && filterRole == old(filterRole)
    {
      users := Map(data, Normalize);
      error := "";
    }

    /** A failed `fetchUsers`: the table stays as it was. */
    method LoadFailed(message: string)
      modifies this
      ensures error == "Error loading users: " + message
      ensures users == old(users) && editingCell == old(editingCell)
      ensures searchTerm == old(searchTerm) && filterRole == old(filterRole)
    {
      error := "Error loading users: " + message;
    }

    /** A click on a cell: an edit starts only when none is under way. */
    method StartEdit(u: SafeUser, f: Field)
      modifies this
      ensures old(editingCell).Some? ==> editingCell == old(editingCell)
      ensures old(editingCell).None? ==> editingCell == Some(EditingCell(u.id, f, StartValue(u, f)))
      ensures users == old(users) && error == old(error)
      ensures searchTerm == old(searchTerm) && filterRole == old(filterRole)
    {
      if editingCell.None? {
        editingCell := Some(EditingCell(u.id, f, StartValue(u, f)));
      }
    }

    /** Typing into the open cell; the phone cell is formatted as typed. */
    method EditValue(input: string)
      modifies this
      ensures old(editingCell).None? ==> editingCell.None?
      ensures old(editingCell).Some? ==>
        editingCell == Some(old(editingCell).value.(value :=
          if old(editingCell).value.field == PhoneNumber then FormatPhoneNumber(input) else input))
      ensures users == old(users) && error == old(error)
      ensures searchTerm == old(searchTerm) && filterRole == old(filterRole)
    {
      if editingCell.Some? {
        var v := if editingCell.value.field == PhoneNumber then FormatPhoneNumber(input) else input;
        editingCell := Some(editingCell.value.(value := v));
      }
    }

    /** `handleCellSave` as written: the request carries only the edited
        field, and goes to `/api/users/<id>`, which no route serves. */
    method Save() returns (call: Option<UpdateCall>)
      ensures editingCell.None? <==> call.None?
      ensures call.Some? ==>
        var c := editingCell.value;
        call.value.route == SaveRouteAsWritten() && !ServedPut(call.value.route)
        && call.value.userId == c.userId
        && call.value.body.Keys == {FieldName(c.field)}
        && call.value.body[FieldName(c.field)] == c.value
    {
      SaveRouteAsWrittenUnserved();
      call := SaveTo(SaveRouteAsWritten());
    }

    /** Corrected: the same request on the profile update route. */
    method SaveCorrected() returns (call: Option<UpdateCall>)
      ensures editingCell.None? <==> call.None?
      ensures call.Some? ==>
        var c := editingCell.value;
        call.value.route == SaveRoute() && ServedPut(call.value.route)
        && call.value.userId == c.userId
        && call.value.body.Keys == {FieldName(c.field)}
        && call.value.body[FieldName(c.field)] == c.value
    {
      call := SaveTo(SaveRoute());
    }

    /** The request for the open cell, sent to `route`. */
    method SaveTo(route: seq<string>) returns (call: Option<UpdateCall>)
      ensures editingCell.None? <==> call.None?
      ensures call.Some? ==>
        var c := editingCell.value;
        call.value.route == route && call.value.userId == c.userId
        && call.value.body.Keys == {FieldName(c.field)}
        && call.value.body[FieldName(c.field)] == c.value
    {
      if editingCell.None? {
        return None;
      }
      var c := editingCell.value;
      return Some(UpdateCall(route, c.userId, map[FieldName(c.field) := c.value]));
    }

    /** The answer to the save: the editor always closes; `refetch` is the
        call of `fetchUsers` after a success. */
    method OnSaveResponse(ok: bool, serverError: string) returns (refetch: bool)
      modifies this
      ensures editingCell.None? && refetch == ok
      ensures error == if ok then "" else SaveError(serverError)
      ensures users == old(users) && searchTerm == old(searchTerm) && filterRole == old(filterRole)
    {
      editingCell := None;
      if !ok {
        error := SaveError(serverError);
        return false;
      }
      error := "";
      return true;
    }

    /** The `catch` of `handleCellSave`: the error shows the thrown message
        and the editor closes; nothing is refetched. */
    method OnSaveThrew(message: string)
      modifies this
      ensures editingCell.None? && error == "Error updating user: " + message
      ensures users == old(users) && searchTerm == old(searchTerm) && filterRole == old(filterRole)
    {
      editingCell := None;
      error := "Error updating user: " + message;
    }
  }
}
