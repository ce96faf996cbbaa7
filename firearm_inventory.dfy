/** The firearm inventory (`frontend/src/components/FirearmInventory.jsx`):
    the search-and-status filter, and the add/edit form with its choice of
    request and its resets. Firearm ids are UUID strings. */
module FirearmInventory {
  import opened Common

  datatype Firearm = Firearm(id: string, serialNumber: string, model: string, condition: string, status: string)

  // ---------------------------------------------------------------------
  // The list
  // ---------------------------------------------------------------------

  predicate MatchesSearch(f: Firearm, term: string) {
    IncludesIgnoringCase(f.serialNumber, term) || IncludesIgnoringCase(f.model, term)
  }

  predicate MatchesStatus(f: Firearm, filterStatus: string) {
    filterStatus == "all" || f.status == filterStatus
  }

  function KeepTest(term: string, filterStatus: string): Firearm -> bool {
    (f: Firearm) => MatchesSearch(f, term) && MatchesStatus(f, filterStatus)
  }

  /** `filteredFirearms`. */
  function FilteredFirearms(firearms: seq<Firearm>, term: string, filterStatus: string): seq<Firearm> {
    Filter(firearms, KeepTest(term, filterStatus))
  }

  /** A firearm is shown exactly when it matches the search and the status
      filter, in inventory order. */
  lemma FilteredFirearmsExactly(firearms: seq<Firearm>, term: string, filterStatus: string, f: Firearm)
    ensures f in FilteredFirearms(firearms, term, filterStatus) <==>
      f in firearms && MatchesSearch(f, term) && MatchesStatus(f, filterStatus)
    ensures SubsequenceOf(FilteredFirearms(firearms, term, filterStatus), firearms)
  {
    FilterMembers(firearms, KeepTest(term, filterStatus), f);
    FilterIsSubsequence(firearms, KeepTest(term, filterStatus));
  }

  /** An empty search with `'all'` shows the whole inventory. */
  lemma FilteredFirearmsUnfiltered(firearms: seq<Firearm>)
    ensures FilteredFirearms(firearms, "", "all") == firearms
  {
    forall i | 0 <= i < |firearms|
      ensures KeepTest("", "all")(firearms[i])
    {
      IncludesEmpty(ToLower(firearms[i].serialNumber));
    }
    FilterAll(firearms, KeepTest("", "all"));
  }

  // ---------------------------------------------------------------------
  // The form
  // ---------------------------------------------------------------------

  datatype FirearmForm = FirearmForm(serialNumber: string, model: string, condition: string, status: string)

  const BLANK_FORM: FirearmForm := FirearmForm("", "", "good", "available")

  datatype HttpMethod = POST | PUT

  /** The request `handleAddFirearm` sends, with `formData` as its body. */
  datatype SaveCall = SaveCall(httpMethod: HttpMethod, endpoint: string, body: FirearmForm)

  /** An edit is under way while `editingId` is a non-empty id. */
  predicate Editing(editingId: Option<string>) {
    editingId.Some? && editingId.value != ""
  }

  /** `handleEdit`'s copy: exactly the four editable fields. */
  function FormOf(f: Firearm): (form: FirearmForm)
    ensures form.serialNumber == f.serialNumber && form.model == f.model
    ensures form.condition == f.condition && form.status == f.status
  {
    FirearmForm(f.serialNumber, f.model, f.condition, f.status)
  }

  class Inventory {
    var firearms: seq<Firearm>
    var loading: bool
    var error: string
    var showModal: bool
    var editingId: Option<string>
    var searchTerm: string
    var filterStatus: string
    var form: FirearmForm

    constructor ()
      ensures firearms == [] && loading && error == "" && !showModal && editingId.None?
      ensures searchTerm == "" && filterStatus == "all" && form == BLANK_FORM
    {
      firearms, loading, error, showModal := [], true, "", false;
      editingId, searchTerm, filterStatus, form := None, "", "all", BLANK_FORM;
    }

    function Visible(): seq<Firearm>
      reads this
    {
      FilteredFirearms(firearms, searchTerm, filterStatus)
    }

    /** `fetchFirearms`: `list` is the `firearms` of an OK answer, or `None`
        on failure with `failure` its message. */
    method FetchFirearms(list: Option<seq<Firearm>>, failure: string)
      modifies this
      ensures !loading
      ensures list.Some? ==> firearms == list.value && error == ""
      ensures list.None? ==> firearms == old(firearms) && error == failure
      ensures showModal == old(showModal) && editingId == old(editingId) && form == old(form)
      ensures searchTerm == old(searchTerm) && filterStatus == old(filterStatus)
    {
      if list.Some? {
        firearms := list.value;
        error := "";
      } else {
        error := failure;
      }
      loading := false;
    }

    /** The request a save sends: an update of the edited firearm, or a new
        one. */
    method Save() returns (call: SaveCall)
      ensures call.body == form
      ensures call.httpMethod == PUT <==> Editing(editingId)
      ensures Editing(editingId) ==> call.endpoint == "/api/firearms/" + editingId.value
      ensures !Editing(editingId) ==> call.endpoint == "/api/firearms"
    {
      if Editing(editingId) {
        call := SaveCall(PUT, "/api/firearms/" + editingId.value, form);
      } else {
        call := SaveCall(POST, "/api/firearms", form);
      }
    }

    /** The answer to the save: success closes the form, blanks it and ends
        the edit (the refetch follows); failure keeps it open. */
    method OnSaveResponse(ok: bool) returns (refetch: bool)
      modifies this
      ensures refetch == ok
      ensures ok ==> (!showModal && form == BLANK_FORM && editingId.None? && error == old(error))
      ensures !ok ==>
        (error == "Failed to save firearm" && showModal == old(showModal)
         && form == old(form) && editingId == old(editingId))
      ensures firearms == old(firearms) && loading == old(loading)
      ensures searchTerm == old(searchTerm) && filterStatus == old(filterStatus)
    {
      if !ok {
        error := "Failed to save firearm";
        return false;
      }
      showModal, form, editingId := false, BLANK_FORM, None;
      return true;
    }

    /** `handleEdit`: the form takes the firearm's fields and the next save
        updates it. */
    method Edit(f: Firearm)
      modifies this
      ensures form == FormOf(f) && editingId == Some(f.id) && showModal
      ensures firearms == old(firearms) && error == old(error) && loading == old(loading)
      ensures searchTerm == old(searchTerm) && filterStatus == old(filterStatus)
    {
      form := FormOf(f);
      editingId := Some(f.id);
      showModal := true;
    }
  }

  /** Editing a firearm and saving sends a PUT of its own fields to its own
      address. */
  method EditThenSave(page: Inventory, f: Firearm) returns (call: SaveCall)
    requires f.id != ""
    modifies page
    ensures call == SaveCall(PUT, "/api/firearms/" + f.id, FormOf(f))
  {
    page.Edit(f);
    call := page.Save();
  }
}
