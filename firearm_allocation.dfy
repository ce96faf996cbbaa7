/** Issuing and returning firearms (`frontend/src/components/FirearmAllocation.jsx`):
    the lists the forms offer, the name and serial lookups of the tables,
    and the form resets after a successful request. */
module FirearmAllocation {
  import opened Common

  datatype Firearm = Firearm(id: string, serialNumber: string, model: string, condition: string, status: string)

  datatype User = User(id: nat, name: string, email: string, role: string)

  datatype Allocation = Allocation(id: string, firearmId: string, guardId: nat, issuedAt: int)

  // ---------------------------------------------------------------------
  // The lists
  // ---------------------------------------------------------------------

  function IsAvailable(): Firearm -> bool {
    (f: Firearm) => f.status == "available"
  }

  function IsGuard(): User -> bool {
    (u: User) => u.role == "guard"
  }

  /** `data.firearms.filter(f => f.status === 'available')`. */
  function AvailableFirearms(all: seq<Firearm>): seq<Firearm> {
    Filter(all, IsAvailable())
  }

  /** `data.users.filter(u => u.role === 'guard')`. */
  function GuardsOf(users: seq<User>): seq<User> {
    Filter(users, IsGuard())
  }

  /** Only available firearms can be issued and only guards receive them;
      nothing else is dropped, and the order is kept. */
  lemma OfferedLists(all: seq<Firearm>, users: seq<User>, f: Firearm, u: User)
    ensures f in AvailableFirearms(all) <==> f in all && f.status == "available"
    ensures u in GuardsOf(users) <==> u in users && u.role == "guard"
    ensures SubsequenceOf(AvailableFirearms(all), all) && SubsequenceOf(GuardsOf(users), users)
  {
    FilterMembers(all, IsAvailable(), f);
    FilterMembers(users, IsGuard(), u);
    FilterIsSubsequence(all, IsAvailable());
    FilterIsSubsequence(users, IsGuard());
  }

  // ---------------------------------------------------------------------
  // Lookups
  // ---------------------------------------------------------------------

  function HasUserId(id: nat): User -> bool {
    (g: User) => g.id == id
  }

  /** `getGuardName`. */
  function GetGuardName(guards: seq<User>, guardId: nat): (name: string)
    ensures (forall i :: 0 <= i < |guards| ==> guards[i].id != guardId) ==> name == "Unknown Guard"
  {
    match FindFirst(guards, HasUserId(guardId))
    case Some(g) => g.name
    case None => "Unknown Guard"
  }

  /** The name shown is the first guard's with that id. */
  lemma GetGuardNameFound(guards: seq<User>, guardId: nat, k: nat)
    requires k < |guards| && guards[k].id == guardId
    requires forall j :: 0 <= j < k ==> guards[j].id != guardId
    ensures GetGuardName(guards, guardId) == guards[k].name
  {
    FindFirstIsEarliest(guards, HasUserId(guardId), k);
  }

  function HasFirearmId(id: string): Firearm -> bool {
    (f: Firearm) => f.id == id
  }

  predicate AllocatedFirearm(allocations: seq<Allocation>, firearmId: string) {
    exists i :: 0 <= i < |allocations| && allocations[i].firearmId == firearmId
  }

  /** `getFirearmInfo`: the serial of a listed firearm; `'N/A'` for one
      known only from an active allocation; `'Unknown'` otherwise. */
  function GetFirearmInfo(firearms: seq<Firearm>, allocations: seq<Allocation>, firearmId: string): (info: string)
    ensures FindFirst(firearms, HasFirearmId(firearmId)).Some? ==>
      info == FindFirst(firearms, HasFirearmId(firearmId)).value.serialNumber
    ensures FindFirst(firearms, HasFirearmId(firearmId)).None? ==>
      info == (if AllocatedFirearm(allocations, firearmId) then "N/A" else "Unknown")
  {
    match FindFirst(firearms, HasFirearmId(firearmId))
    case Some(f) => f.serialNumber
    case None =>
      if exists i :: 0 <= i < |allocations| && allocations[i].firearmId == firearmId then "N/A" else "Unknown"
  }

  /** The list holds available firearms only, so an issued firearm (the
      server marks it `'allocated'`) is never found there: the active
      allocations table shows `'N/A'` for every one of them. */
  lemma IssuedFirearmShowsNA(all: seq<Firearm>, allocations: seq<Allocation>, k: nat)
    requires k < |allocations|
    requires forall f :: f in all && f.id == allocations[k].firearmId ==> f.status == "allocated"
    ensures GetFirearmInfo(AvailableFirearms(all), allocations, allocations[k].firearmId) == "N/A"
  {
    var listed := AvailableFirearms(all);
    var id := allocations[k].firearmId;
    forall i | 0 <= i < |listed|
      ensures !HasFirearmId(id)(listed[i])
    {
      FilterElements(all, IsAvailable());
    }
  }

  // ---------------------------------------------------------------------
  // The forms
  // ---------------------------------------------------------------------

  datatype IssueForm = IssueForm(firearmId: string, guardId: string, notes: string)
  datatype ReturnForm = ReturnForm(allocationId: string, condition: string, notes: string)

  const BLANK_ISSUE: IssueForm := IssueForm("", "", "")
  const BLANK_RETURN: ReturnForm := ReturnForm("", "good", "")

  class AllocationPage {
    var firearms: seq<Firearm>
    var guards: seq<User>
    var activeAllocations: seq<Allocation>
    var error: string
    var showModal: bool
    var issueForm: IssueForm
    var returnForm: ReturnForm

    constructor ()
      ensures firearms == [] && guards == [] && activeAllocations == [] && error == "" && !showModal
      ensures issueForm == BLANK_ISSUE && returnForm == BLANK_RETURN
    {
      firearms, guards, activeAllocations, error, showModal := [], [], [], "", false;
      issueForm, returnForm := BLANK_ISSUE, BLANK_RETURN;
    }

    /** `fetchFirearms`: only the available ones are kept. */
    method FirearmsLoaded(all: seq<Firearm>)
      modifies this
      ensures firearms == AvailableFirearms(all)
      ensures guards == old(guards) && activeAllocations == old(activeAllocations) && error == old(error)
      ensures showModal == old(showModal) && issueForm == old(issueForm) && returnForm == old(returnForm)
    {
      firearms := AvailableFirearms(all);
    }

    /** `fetchGuards`: only guards are kept. */
    method GuardsLoaded(users: seq<User>)
      modifies this
      ensures guards == GuardsOf(users)
      ensures firearms == old(firearms) && activeAllocations == old(activeAllocations) && error == old(error)
      ensures showModal == old(showModal) && issueForm == old(issueForm) && returnForm == old(returnForm)
    {
      guards := GuardsOf(users);
    }

    /** `fetchActiveAllocations`: a missing list is empty. */
    method AllocationsLoaded(list: Option<seq<Allocation>>)
      modifies this
      ensures activeAllocations == list.GetOr([])
      ensures firearms == old(firearms) && guards == old(guards) && error == old(error)
      ensures showModal == old(showModal) && issueForm == old(issueForm) && returnForm == old(returnForm)
    {
      activeAllocations := list.GetOr([]);
    }

    /** A failed fetch of any of the three lists shows its message. */
    method LoadFailed(message: string)
      modifies this
      ensures error == message
      ensures firearms == old(firearms) && guards == old(guards) && activeAllocations == old(activeAllocations)
      ensures showModal == old(showModal) && issueForm == old(issueForm) && returnForm == old(returnForm)
    {
      error := message;
    }

    /** The answer to `handleIssueFirearm`: success closes the modal and
        blanks the issue form (the lists are fetched again, then the error
        is cleared); the return form is untouched either way. */
    method OnIssueResponse(ok: bool, serverError: string) returns (refetch: bool)
      modifies this
      ensures refetch == ok && returnForm == old(returnForm)
      ensures ok ==> (!showModal && issueForm == BLANK_ISSUE && error == "")
      ensures !ok ==>
        (error == (if serverError != "" then serverError else "Failed to issue firearm")
         && showModal == old(showModal) && issueForm == old(issueForm))
      ensures firearms == old(firearms) && guards == old(guards) && activeAllocations == old(activeAllocations)
    {
      if !ok {
        error := if serverError != "" then serverError else "Failed to issue firearm";
        return false;
      }
      showModal, issueForm, error := false, BLANK_ISSUE, "";
      return true;
    }

    /** The answer to `handleReturnFirearm`, the same for the return form. */
    method OnReturnResponse(ok: bool, serverError: string) returns (refetch: bool)
      modifies this
      ensures refetch == ok && issueForm == old(issueForm)
      ensures ok ==> (!showModal && returnForm == BLANK_RETURN && error == "")
      ensures !ok ==>
        (error == (if serverError != "" then serverError else "Failed to return firearm")
         && showModal == old(showModal) && returnForm == old(returnForm))
      ensures firearms == old(firearms) && guards == old(guards) && activeAllocations == old(activeAllocations)
    {
      if !ok {
        error := if serverError != "" then serverError else "Failed to return firearm";
        return false;
      }
      showModal, returnForm, error := false, BLANK_RETURN, "";
      return true;
    }
  }
}
