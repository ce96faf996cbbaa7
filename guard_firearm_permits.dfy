/** The guards' firearm permits table (`frontend/src/components/GuardFirearmPermits.jsx`):
    the loop that gathers each guard's permit, the status cascade, the
    search box, the edit prefill and the missing-guard guard. Instants are
    ms since the epoch; `now` is the clock reading. */
module GuardFirearmPermits {
  import opened Common

  datatype User = User(id: nat, name: string, email: string, role: string)

  /** A permit as `GET /api/guard-firearm-permits/:guardId` returns it: the
      stored date strings, and the expiry as the instant it parses to. */
  datatype Permit = Permit(permitNumber: string, trainingDate: string, expiryDate: string, expiresAt: int)

  // ---------------------------------------------------------------------
  // Status
  // ---------------------------------------------------------------------

  /** `isPermitExpired`: `new Date() > new Date(expiryDate)`. */
  predicate IsPermitExpired(p: Permit, now: int) {
    now > p.expiresAt
  }

  /** `isPermitExpiring`: at most 30 days left, measured without rounding. */
  predicate IsPermitExpiring(p: Permit, now: int) {
    p.expiresAt - now <= 30 * DAY_MS
  }

  datatype Status = NoPermit | Expired | ExpiringSoon | Active

  function StatusText(s: Status): string {
    match s
    case NoPermit => "No Permit"
    case Expired => "Expired"
    case ExpiringSoon => "Expiring Soon"
    case Active => "Active"
  }

  /** The cascade in the table row; a missing or `null` permit is no permit. */
  function PermitStatus(permit: Option<Permit>, now: int): (s: Status)
    ensures s == NoPermit <==> permit.None?
    ensures s == Expired <==> permit.Some? && now > permit.value.expiresAt
    ensures s == ExpiringSoon <==>
      permit.Some? && now <= permit.value.expiresAt && permit.value.expiresAt - now <= 30 * DAY_MS
    ensures s == Active <==> permit.Some? && permit.value.expiresAt - now > 30 * DAY_MS
  {
    if permit.None? then NoPermit
    else if IsPermitExpired(permit.value, now) then Expired
    else if IsPermitExpiring(permit.value, now) then ExpiringSoon
    else Active
  }

  /** An expired permit also passes the expiring test, but the cascade shows
      it as expired; a permit expiring this very instant is not expired. */
  lemma ExpiredTakesPrecedence(p: Permit, now: int)
    ensures IsPermitExpired(p, now) ==> IsPermitExpiring(p, now) && PermitStatus(Some(p), now) == Expired
    ensures PermitStatus(Some(p.(expiresAt := now)), now) == ExpiringSoon
  {
  }

  // ---------------------------------------------------------------------
  // Search
  // ---------------------------------------------------------------------

  predicate MatchesSearch(g: User, term: string) {
    IncludesIgnoringCase(g.name, term) || IncludesIgnoringCase(g.email, term)
  }

  function SearchTest(term: string): User -> bool {
    (g: User) => MatchesSearch(g, term)
  }

  function FilteredGuards(guards: seq<User>, term: string): seq<User> {
    Filter(guards, SearchTest(term))
  }

  lemma FilteredGuardsExactly(guards: seq<User>, term: string, g: User)
    ensures g in FilteredGuards(guards, term) <==> g in guards && MatchesSearch(g, term)
    ensures SubsequenceOf(FilteredGuards(guards, term), guards)
  {
    FilterMembers(guards, SearchTest(term), g);
    FilterIsSubsequence(guards, SearchTest(term));
  }

  function IsGuard(): User -> bool {
    (u: User) => u.role == "guard"
  }

  // ---------------------------------------------------------------------
  // Gathering the permits
  // ---------------------------------------------------------------------

  /** How one guard's permit request went: an OK answer (whose body may be
      `null`), a non-OK answer, or a thrown error. */
  datatype PermitFetch = FetchOk(body: Option<Permit>) | FetchNotOk | FetchThrew

  /** One turn of the loop: an OK answer stores its body, a thrown error
      stores `null`, a non-OK answer stores nothing. */
  function StoreFetch(permits: map<nat, Option<Permit>>, id: nat, f: PermitFetch): map<nat, Option<Permit>> {
    match f
    case FetchOk(body) => permits[id := body]
    case FetchNotOk => permits
    case FetchThrew => permits[id := None]
  }

  function Gathered(guards: seq<User>, fetches: seq<PermitFetch>): map<nat, Option<Permit>>
    requires |fetches| == |guards|
  {
    if guards == [] then map[]
    else
      var n := |guards| - 1;
      StoreFetch(Gathered(guards[..n], fetches[..n]), guards[n].id, fetches[n])
  }

  /** The `for (const guard of guardList)` loop; `fetches[i]` is how the
      request of `guardList[i]` went. */
  method GatherPermits(guards: seq<User>, fetches: seq<PermitFetch>) returns (permits: map<nat, Option<Permit>>)
    requires |fetches| == |guards|
    ensures permits == Gathered(guards, fetches)
  {
    permits := map[];
    var i := 0;
    while i < |guards|
      invariant 0 <= i <= |guards|
      invariant permits == Gathered(guards[..i], fetches[..i])
    {
      assert guards[..i + 1][..i] == guards[..i];
      assert fetches[..i + 1][..i] == fetches[..i];
      permits := StoreFetch(permits, guards[i].id, fetches[i]);
      i := i + 1;
    }
    assert guards[..i] == guards && fetches[..i] == fetches;
  }

  /** `guardPermits[guard.id]`: missing and `null` alike. */
  function PermitOf(permits: map<nat, Option<Permit>>, id: nat): Option<Permit> {
    if id in permits then permits[id] else None
  }

  lemma {:induction false} GatheredMissing(guards: seq<User>, fetches: seq<PermitFetch>, id: nat)
    requires |fetches| == |guards|
    requires forall i :: 0 <= i < |guards| ==> guards[i].id != id
    ensures id !in Gathered(guards, fetches)
  {
    if guards != [] {
      var n := |guards| - 1;
      forall i | 0 <= i < n ensures guards[..n][i].id != id {
        assert guards[..n][i] == guards[i];
      }
      GatheredMissing(guards[..n], fetches[..n], id);
    }
  }

  predicate DistinctIds(guards: seq<User>) {
    forall i, j :: 0 <= i < j < |guards| ==> guards[i].id != guards[j].id
  }

  /** With distinct ids, each guard's row shows what its own request
      brought, and a failed request shows no permit. */
  lemma {:induction false} GatheredEntry(guards: seq<User>, fetches: seq<PermitFetch>, k: nat)
    requires |fetches| == |guards| && DistinctIds(guards) && k < |guards|
    ensures PermitOf(Gathered(guards, fetches), guards[k].id) ==
      (if fetches[k].FetchOk? then fetches[k].body else None)
  {
    var n := |guards| - 1;
    var prefix := guards[..n];
    if k < n {
      assert DistinctIds(prefix) by {
        forall i, j | 0 <= i < j < |prefix| ensures prefix[i].id != prefix[j].id {
          assert prefix[i] == guards[i] && prefix[j] == guards[j];
        }
      }
      GatheredEntry(prefix, fetches[..n], k);
      assert prefix[k] == guards[k] && fetches[..n][k] == fetches[k];
      assert guards[n].id != guards[k].id;
    } else if fetches[k].FetchNotOk? {
      forall i | 0 <= i < n ensures prefix[i].id != guards[k].id {
        assert prefix[i] == guards[i];
      }
      GatheredMissing(prefix, fetches[..n], guards[k].id);
    }
  }

  // ---------------------------------------------------------------------
  // The component
  // ---------------------------------------------------------------------

  datatype PermitForm = PermitForm(permitNumber: string, trainingDate: string, expiryDate: string)

  const BLANK_FORM: PermitForm := PermitForm("", "", "")

  /** The form `handleEditClick` opens: the permit's values with dates cut
      at the first `'T'`, or blanks when the guard has no permit. */
  function EditPrefill(permit: Option<Permit>): (f: PermitForm)
    ensures permit.None? ==> f == BLANK_FORM
    ensures permit.Some? ==> f.permitNumber == permit.value.permitNumber
    ensures permit.Some? ==> 'T' !in f.trainingDate && 'T' !in f.expiryDate
    ensures permit.Some? ==> Prefix(f.trainingDate, permit.value.trainingDate) && Prefix(f.expiryDate, permit.value.expiryDate)
  {
    if permit.None? then BLANK_FORM
    else PermitForm(permit.value.permitNumber, BeforeT(permit.value.trainingDate), BeforeT(permit.value.expiryDate))
  }

  predicate Prefix(a: string, b: string) {
    |a| <= |b| && a == b[..|a|]
  }

  /** A date already cut at `'T'` is left as it is, so reopening the editor
      on a saved date changes nothing. */
  lemma PrefillDateStable(date: string)
    requires 'T' !in date
    ensures BeforeT(date) == date
  {
    if |BeforeT(date)| < |date| {
      assert date[|BeforeT(date)|] == 'T';
    }
  }

  /** The `POST /api/guard-firearm-permits` body. */
  datatype PermitRequest = PermitRequest(guardId: nat, form: PermitForm)

  const MSG_SELECT_GUARD: string := "Please select a guard"

  class PermitsPage {
    var guards: seq<User>
    var guardPermits: map<nat, Option<Permit>>
    var loading: bool
    var error: string
    var showModal: bool
    /** `selectedGuardId`, with `''` as `None`. */
    var selectedGuardId: Option<nat>
    var form: PermitForm

    constructor ()
      ensures guards == [] && guardPermits == map[] && loading && error == ""
      ensures !showModal && selectedGuardId.None? && form == BLANK_FORM
    {
      guards, guardPermits, loading, error := [], map[], true, "";
      showModal, selectedGuardId, form := false, None, BLANK_FORM;
    }

    /** `fetchGuardsAndPermits`: `users` is the list of an OK answer (or
        `None` on failure, with `failure` its message); only guards are
        kept, and each gets its permit request. */
    method FetchAll(users: Option<seq<User>>, fetches: seq<PermitFetch>, failure: string)
      requires users.Some? ==> |fetches| == |Filter(users.value, IsGuard())|
      modifies this
      ensures !loading
      ensures users.Some? ==>
        (guards == Filter(users.value, IsGuard()) && error == ""
         && guardPermits == Gathered(guards, fetches))
      ensures users.None? ==>
        (error == failure && guards == old(guards) && guardPermits == old(guardPermits))
      ensures showModal == old(showModal) && selectedGuardId == old(selectedGuardId) && form == old(form)
    {
      loading := true;
      if users.None? {
        error := failure;
      } else {
        var list := Filter(users.value, IsGuard());
        guards := list;
        var permits := GatherPermits(list, fetches);
        guardPermits := permits;
        error := "";
      }
      loading := false;
    }

    /** The status of a guard's row. */
    function RowStatus(guardId: nat, now: int): Status
      reads this
    {
      PermitStatus(PermitOf(guardPermits, guardId), now)
    }

    /** `handleEditClick`. */
    method EditClick(guardId: nat)
      modifies this
      ensures form == EditPrefill(PermitOf(guardPermits, guardId))
      ensures selectedGuardId == Some(guardId) && showModal
      ensures guards == old(guards) && guardPermits == old(guardPermits) && error == old(error)
      ensures loading == old(loading)
    {
      form := EditPrefill(PermitOf(guardPermits, guardId));
      selectedGuardId := Some(guardId);
      showModal := true;
    }

    /** `handleAddEditPermit` up to its request: nothing is sent without a
        selected guard. */
    method Submit() returns (req: Option<PermitRequest>)
      modifies this
      ensures selectedGuardId.None? <==> req.None?
      ensures req.None? ==> error == MSG_SELECT_GUARD
      ensures req.Some? ==> (req.value == PermitRequest(selectedGuardId.value, form) && error == old(error))
      ensures guards == old(guards) && guardPermits == old(guardPermits)
      ensures selectedGuardId == old(selectedGuardId) && showModal == old(showModal)
      ensures form == old(form) && loading == old(loading)
    {
      if selectedGuardId.None? {
        error := MSG_SELECT_GUARD;
        return None;
      }
      return Some(PermitRequest(selectedGuardId.value, form));
    }

    /** The answer to the request: success closes and blanks the form (the
        refetch follows); failure shows the server's error. */
    method OnSubmitResponse(ok: bool, serverError: string) returns (refetch: bool)
      modifies this
      ensures refetch == ok
      ensures ok ==> (!showModal && selectedGuardId.None? && form == BLANK_FORM && error == old(error))
      ensures !ok ==>
        (error == (if serverError != "" then serverError else "Failed to save permit")
         && showModal == old(showModal) && selectedGuardId == old(selectedGuardId) && form == old(form))
      ensures guards == old(guards) && guardPermits == old(guardPermits) && loading == old(loading)
    {
      if !ok {
        error := if serverError != "" then serverError else "Failed to save permit";
        return false;
      }
      showModal, form, selectedGuardId := false, BLANK_FORM, None;
      return true;
    }
  }
}
