/** Firearm maintenance tracking (`frontend/src/components/FirearmMaintenance.jsx`):
    the age label and the overdue warning drawn from a firearm's newest
    record, the search box, the loop that gathers every firearm's records,
    and the form's missing-firearm guard. Times are ms since the epoch;
    `now` is the clock reading. */
module FirearmMaintenance {
  import opened Common

  datatype Firearm = Firearm(id: string, serialNumber: string, model: string, status: string)

  /** A record as the API lists it, newest first. */
  datatype MaintenanceRecord = MaintenanceRecord(maintenanceDate: int)

  /** What `getLastMaintenanceAge` says, before it is rendered. */
  datatype Age = Never | Today | OneDayAgo | DaysAgo(days: int) | MonthsAgo(months: nat) | YearsAgo(years: nat)

  function AgeText(a: Age): string {
    match a
    case Never => "Never"
    case Today => "Today"
    case OneDayAgo => "1 day ago"
    case DaysAgo(d) => IntToString(d) + " days ago"
    case MonthsAgo(m) => NatToString(m) + " months ago"
    case YearsAgo(y) => NatToString(y) + " years ago"
  }

  /** `maintenanceRecords[firearmId]`, missing or empty alike. */
  function RecordsOf(records: map<string, seq<MaintenanceRecord>>, firearmId: string): seq<MaintenanceRecord> {
    if firearmId in records then records[firearmId] else []
  }

  /** Whole days since the newest record, rounded down. */
  function DaysOld(last: MaintenanceRecord, now: int): int {
    FloorDiv(now - last.maintenanceDate, DAY_MS)
  }

  /** `getLastMaintenanceAge`. */
  function LastMaintenanceAge(records: map<string, seq<MaintenanceRecord>>, firearmId: string, now: int): (a: Age)
    ensures RecordsOf(records, firearmId) == [] <==> a == Never
    ensures RecordsOf(records, firearmId) != [] ==>
      var n := DaysOld(RecordsOf(records, firearmId)[0], now);
      (a == Today <==> n == 0)
      && (a == OneDayAgo <==> n == 1)
      && (a.DaysAgo? <==> n < 0 || 2 <= n < 30)
      && (a.DaysAgo? ==> a.days == n)
      && (a.MonthsAgo? <==> 30 <= n < 365)
      && (a.MonthsAgo? ==> a.months == n / 30)
      && (a.YearsAgo? <==> n >= 365)
      && (a.YearsAgo? ==> a.years == n / 365)
  {
    var rs := RecordsOf(records, firearmId);
    if rs == [] then Never
    else
      var n := DaysOld(rs[0], now);
      if n == 0 then Today
      else if n == 1 then OneDayAgo
      else if n < 30 then DaysAgo(n)
      else if n < 365 then MonthsAgo(n / 30)
      else YearsAgo(n / 365)
  }

  /** `shouldWarnMaintenance`: no record, or the newest is more than 180
      days old (compared without rounding). */
  function ShouldWarnMaintenance(records: map<string, seq<MaintenanceRecord>>, firearmId: string, now: int): (w: bool)
    ensures RecordsOf(records, firearmId) == [] ==> w
    ensures RecordsOf(records, firearmId) != [] ==>
      (w <==> now - RecordsOf(records, firearmId)[0].maintenanceDate > 180 * DAY_MS)
  {
    var rs := RecordsOf(records, firearmId);
    rs == [] || now - rs[0].maintenanceDate > 180 * DAY_MS
  }

  /** The warning and the label agree: past 180 whole days there is always a
      warning, and a warning means at least 180 whole days. */
  lemma WarningMatchesAge(records: map<string, seq<MaintenanceRecord>>, firearmId: string, now: int)
    requires RecordsOf(records, firearmId) != []
    ensures var n := DaysOld(RecordsOf(records, firearmId)[0], now);
      (n > 180 ==> ShouldWarnMaintenance(records, firearmId, now))
      && (ShouldWarnMaintenance(records, firearmId, now) ==> n >= 180)
  {
    var elapsed := now - RecordsOf(records, firearmId)[0].maintenanceDate;
    var n := DaysOld(RecordsOf(records, firearmId)[0], now);
    assert n * DAY_MS <= elapsed < (n + 1) * DAY_MS;
    if n > 180 {
      MulMonotone(181, n, DAY_MS);
    }
    if elapsed > 180 * DAY_MS && n < 180 {
      MulMonotone(n + 1, 180, DAY_MS);
    }
  }

  /** Only the newest record matters: lists with the same first record give
      the same label and warning. */
  lemma OnlyNewestRecordCounts(records1: map<string, seq<MaintenanceRecord>>,
                               records2: map<string, seq<MaintenanceRecord>>, firearmId: string, now: int)
    requires RecordsOf(records1, firearmId) != [] && RecordsOf(records2, firearmId) != []
    requires RecordsOf(records1, firearmId)[0] == RecordsOf(records2, firearmId)[0]
    ensures LastMaintenanceAge(records1, firearmId, now) == LastMaintenanceAge(records2, firearmId, now)
    ensures ShouldWarnMaintenance(records1, firearmId, now) == ShouldWarnMaintenance(records2, firearmId, now)
  {
  }

  /** A firearm serviced today, or never, with the warning after it. */
  lemma AgeExamples(firearmId: string, now: int)
    ensures LastMaintenanceAge(map[], firearmId, now) == Never && ShouldWarnMaintenance(map[], firearmId, now)
    ensures LastMaintenanceAge(map[firearmId := [MaintenanceRecord(now)]], firearmId, now) == Today
    ensures !ShouldWarnMaintenance(map[firearmId := [MaintenanceRecord(now)]], firearmId, now)
    ensures LastMaintenanceAge(map[firearmId := [MaintenanceRecord(now - 400 * DAY_MS)]], firearmId, now) == YearsAgo(1)
  {
    assert DaysOld(MaintenanceRecord(now - 400 * DAY_MS), now) == 400;
  }

  // ---------------------------------------------------------------------
  // Search
  // ---------------------------------------------------------------------

  predicate MatchesSearch(f: Firearm, term: string) {
    IncludesIgnoringCase(f.serialNumber, term) || IncludesIgnoringCase(f.model, term)
  }

  function SearchTest(term: string): Firearm -> bool {
    (f: Firearm) => MatchesSearch(f, term)
  }

  function FilteredFirearms(firearms: seq<Firearm>, term: string): seq<Firearm> {
    Filter(firearms, SearchTest(term))
  }

  lemma FilteredFirearmsExactly(firearms: seq<Firearm>, term: string, f: Firearm)
    ensures f in FilteredFirearms(firearms, term) <==> f in firearms && MatchesSearch(f, term)
    ensures SubsequenceOf(FilteredFirearms(firearms, term), firearms)
  {
    FilterMembers(firearms, SearchTest(term), f);
    FilterIsSubsequence(firearms, SearchTest(term));
  }

  // ---------------------------------------------------------------------
  // Gathering the records
  // ---------------------------------------------------------------------

  /** How the `GET /api/firearm-maintenance/:id` of one firearm went: an OK
      answer (whose `records` may be missing), a non-OK answer, or a thrown
      error. */
  datatype RecordsFetch = FetchOk(list: Option<seq<MaintenanceRecord>>) | FetchNotOk | FetchThrew

  /** One turn of the loop: an OK answer stores its list (or `[]`), a thrown
      error stores `[]`, a non-OK answer stores nothing. */
  function StoreFetch(records: map<string, seq<MaintenanceRecord>>, id: string, f: RecordsFetch): map<string, seq<MaintenanceRecord>> {
    match f
    case FetchOk(list) => records[id := list.GetOr([])]
    case FetchNotOk => records
    case FetchThrew => records[id := []]
  }

  /** The dictionary after the loop has handled `firearms` in order. */
  function Gathered(firearms: seq<Firearm>, fetches: seq<RecordsFetch>): map<string, seq<MaintenanceRecord>>
    requires |fetches| == |firearms|
  {
    if firearms == [] then map[]
    else
      var n := |firearms| - 1;
      StoreFetch(Gathered(firearms[..n], fetches[..n]), firearms[n].id, fetches[n])
  }

  /** The `for (const firearm of firearmList)` loop; `fetches[i]` is how the
      request of `firearmList[i]` went. */
  method GatherRecords(firearms: seq<Firearm>, fetches: seq<RecordsFetch>)
    returns (records: map<string, seq<MaintenanceRecord>>)
    requires |fetches| == |firearms|
    ensures records == Gathered(firearms, fetches)
  {
    records := map[];
    var i := 0;
    while i < |firearms|
      invariant 0 <= i <= |firearms|
      invariant records == Gathered(firearms[..i], fetches[..i])
    {
      assert firearms[..i + 1][..i] == firearms[..i];
      assert fetches[..i + 1][..i] == fetches[..i];
      records := StoreFetch(records, firearms[i].id, fetches[i]);
      i := i + 1;
    }
    assert firearms[..i] == firearms && fetches[..i] == fetches;
  }

  predicate DistinctIds(firearms: seq<Firearm>) {
    forall i, j :: 0 <= i < j < |firearms| ==> firearms[i].id != firearms[j].id
  }

  /** Only listed firearms get an entry. */
  lemma {:induction false} GatheredKeys(firearms: seq<Firearm>, fetches: seq<RecordsFetch>, id: string)
    requires |fetches| == |firearms|
    requires forall i :: 0 <= i < |firearms| ==> firearms[i].id != id
    ensures id !in Gathered(firearms, fetches)
  {
    if firearms != [] {
      var n := |firearms| - 1;
      forall i | 0 <= i < n ensures firearms[..n][i].id != id {
        assert firearms[..n][i] == firearms[i];
      }
      GatheredKeys(firearms[..n], fetches[..n], id);
    }
  }

  /** With distinct ids, each firearm's entry is what its own request
      brought: its list (or `[]`) after an OK answer, `[]` after a thrown
      error, and no entry after a non-OK answer. */
  lemma {:induction false} GatheredEntry(firearms: seq<Firearm>, fetches: seq<RecordsFetch>, k: nat)
    requires |fetches| == |firearms| && DistinctIds(firearms) && k < |firearms|
    ensures var id := firearms[k].id;
      var records := Gathered(firearms, fetches);
      (fetches[k].FetchOk? ==> id in records && records[id] == fetches[k].list.GetOr([]))
      && (fetches[k].FetchThrew? ==> id in records && records[id] == [])
      && (fetches[k].FetchNotOk? ==> id !in records)
  {
    var n := |firearms| - 1;
    var prefix := firearms[..n];
    if k < n {
      assert DistinctIds(prefix) by {
        forall i, j | 0 <= i < j < |prefix| ensures prefix[i].id != prefix[j].id {
          assert prefix[i] == firearms[i] && prefix[j] == firearms[j];
        }
      }
      GatheredEntry(prefix, fetches[..n], k);
      assert prefix[k] == firearms[k] && fetches[..n][k] == fetches[k];
      assert firearms[n].id != firearms[k].id;
    } else if fetches[k].FetchNotOk? {
      forall i | 0 <= i < n ensures prefix[i].id != firearms[k].id {
        assert prefix[i] == firearms[i];
      }
      GatheredKeys(prefix, fetches[..n], firearms[k].id);
    }
  }

  // ---------------------------------------------------------------------
  // The component
  // ---------------------------------------------------------------------

  /** The `POST /api/firearm-maintenance` body. */
  datatype MaintenanceRequest = MaintenanceRequest(firearmId: string, maintenanceType: string, notes: string)

  const MSG_SELECT_FIREARM: string := "Please select a firearm"

  class Tracker {
    var firearms: seq<Firearm>
    var maintenanceRecords: map<string, seq<MaintenanceRecord>>
    var loading: bool
    var error: string
    var showModal: bool
    var selectedFirearmId: string
    var maintenanceType: string
    var notes: string

    constructor ()
      ensures firearms == [] && maintenanceRecords == map[] && loading && error == ""
      ensures !showModal && selectedFirearmId == "" && maintenanceType == "inspection" && notes == ""
    {
      firearms, maintenanceRecords, loading, error := [], map[], true, "";
      showModal, selectedFirearmId, maintenanceType, notes := false, "", "inspection", "";
    }

    /** `fetchFirearmsAndMaintenance`: `list` is the firearm list of an OK
        answer (or `None` on failure, with `failure` its message). */
    method FetchAll(list: Option<seq<Firearm>>, fetches: seq<RecordsFetch>, failure: string)
      requires list.Some? ==> |fetches| == |list.value|
      modifies this
      ensures !loading
      ensures list.Some? ==>
        (firearms == list.value && error == "" && maintenanceRecords == Gathered(list.value, fetches))
      ensures list.None? ==>
        (error == failure && firearms == old(firearms) && maintenanceRecords == old(maintenanceRecords))
      ensures showModal == old(showModal) && selectedFirearmId == old(selectedFirearmId)
      ensures maintenanceType == old(maintenanceType) && notes == old(notes)
    {
      loading := true;
      if list.None? {
        error := failure;
      } else {
        firearms := list.value;
        var records := GatherRecords(list.value, fetches);
        maintenanceRecords := records;
        error := "";
      }
      loading := false;
    }

    /** `handleAddMaintenance` up to its request: nothing is sent without a
        selected firearm. */
    method Submit() returns (req: Option<MaintenanceRequest>)
      modifies this
      ensures selectedFirearmId == "" <==> req.None?
      ensures req.None? ==> error == MSG_SELECT_FIREARM
      ensures req.Some? ==>
        (req.value == MaintenanceRequest(selectedFirearmId, maintenanceType, notes) && error == old(error))
      ensures firearms == old(firearms) && maintenanceRecords == old(maintenanceRecords)
      ensures selectedFirearmId == old(selectedFirearmId) && showModal == old(showModal)
      ensures maintenanceType == old(maintenanceType) && notes == old(notes) && loading == old(loading)
    {
      if selectedFirearmId == "" {
        error := MSG_SELECT_FIREARM;
        return None;
      }
      return Some(MaintenanceRequest(selectedFirearmId, maintenanceType, notes));
    }

    /** The answer to the request: success closes and resets the form (the
        refetch follows); failure shows the server's error. */
    method OnSubmitResponse(ok: bool, serverError: string) returns (refetch: bool)
      modifies this
      ensures refetch == ok
      ensures ok ==>
        (!showModal && selectedFirearmId == "" && maintenanceType == "inspection" && notes == ""
         && error == old(error))
      ensures !ok ==>
        (error == (if serverError != "" then serverError else "Failed to record maintenance")
         && showModal == old(showModal) && selectedFirearmId == old(selectedFirearmId)
         && maintenanceType == old(maintenanceType) && notes == old(notes))
      ensures firearms == old(firearms) && maintenanceRecords == old(maintenanceRecords) && loading == old(loading)
    {
      if !ok {
        error := if serverError != "" then serverError else "Failed to record maintenance";
        return false;
      }
      showModal, maintenanceType, notes, selectedFirearmId := false, "inspection", "", "";
      return true;
    }
  }
}
