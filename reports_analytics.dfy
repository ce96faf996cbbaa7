/** The report builders of `src/components/ReportsAnalytics.jsx`: each
    report maps fetched documents to rows with fixed column names, missing
    values shown as `'N/A'`, and the component keeps the last report as
    `data` for the exporters. Dates arrive already rendered, since locale
    formatting is not modelled; the permit expiry is also given in ms for
    the day count. */
module ReportsAnalytics {
  import opened Common
  import opened ReportsCsv
  import GuardDashboard

  /** `x || fallback` (or `x ? x : fallback`): a missing or empty value
      shows as the fallback. */
  function OrElse(v: Option<string>, fallback: string): (s: string)
    ensures v.None? || v.value == "" ==> s == fallback
    ensures v.Some? && v.value != "" ==> s == v.value
  {
    if v.None? || v.value == "" then fallback else v.value
  }

  /** `x || 'N/A'`. */
  function OrNA(v: Option<string>): string {
    OrElse(v, "N/A")
  }

  /** All of a row's values, in column order. */
  function Values(row: Row): seq<string> {
    Map(row, ValueOf)
  }

  /** Rows that all have the same distinct column names. */
  predicate Shaped(rows: seq<Row>, headers: seq<string>) {
    forall i :: 0 <= i < |rows| ==> Keys(rows[i]) == headers && DistinctKeys(rows[i])
  }

  // ---------------------------------------------------------------------
  // Firearm audit
  // ---------------------------------------------------------------------

  datatype FirearmDoc = FirearmDoc(
    id: Option<string>, serialNumber: Option<string>, kind: Option<string>,
    model: Option<string>, caliber: Option<string>, status: Option<string>,
    location: Option<string>, lastMaintenance: Option<string>, condition: Option<string>)

  const AUDIT_HEADERS: seq<string> :=
    ["Firearm ID", "Serial Number", "Type", "Model", "Caliber", "Status", "Location",
     "Last Maintenance", "Condition"]

  function AuditRow(f: FirearmDoc): Row {
    [("Firearm ID", OrNA(f.id)), ("Serial Number", OrNA(f.serialNumber)), ("Type", OrNA(f.kind)),
     ("Model", OrNA(f.model)), ("Caliber", OrNA(f.caliber)), ("Status", OrNA(f.status)),
     ("Location", OrNA(f.location)), ("Last Maintenance", OrNA(f.lastMaintenance)),
     ("Condition", OrNA(f.condition))]
  }

  /** Every audit row has the nine columns in order; a firearm with nothing
      recorded is all `'N/A'`. */
  lemma AuditRowShape(f: FirearmDoc)
    ensures Keys(AuditRow(f)) == AUDIT_HEADERS && DistinctKeys(AuditRow(f))
    ensures f == FirearmDoc(None, None, None, None, None, None, None, None, None) ==>
      forall i :: 0 <= i < |AuditRow(f)| ==> AuditRow(f)[i].1 == "N/A"
  {
  }

  // ---------------------------------------------------------------------
  // Allocation history
  // ---------------------------------------------------------------------

  datatype AllocationDoc = AllocationDoc(
    id: Option<string>, guardId: string, guardName: Option<string>,
    firearmSerialNumber: Option<string>, allocationDate: Option<string>,
    returnDate: Option<string>, purpose: Option<string>, status: Option<string>,
    conditionOnReturn: Option<string>)

  function ByGuard(guardId: string): AllocationDoc -> bool {
    (a: AllocationDoc) => a.guardId == guardId
  }

  /** `filterGuard ? allocations.filter(a => a.guardId === filterGuard) : allocations`. */
  function GuardFiltered(allocations: seq<AllocationDoc>, filterGuard: string): seq<AllocationDoc> {
    if filterGuard == "" then allocations else Filter(allocations, ByGuard(filterGuard))
  }

  /** With a guard chosen, exactly that guard's allocations stay, in order;
      with none chosen, all of them. */
  lemma GuardFilteredExactly(allocations: seq<AllocationDoc>, filterGuard: string, a: AllocationDoc)
    ensures filterGuard == "" ==> GuardFiltered(allocations, filterGuard) == allocations
    ensures filterGuard != "" ==>
      (a in GuardFiltered(allocations, filterGuard) <==> a in allocations && a.guardId == filterGuard)
    ensures SubsequenceOf(GuardFiltered(allocations, filterGuard), allocations)
  {
    if filterGuard != "" {
      FilterMembers(allocations, ByGuard(filterGuard), a);
      FilterIsSubsequence(allocations, ByGuard(filterGuard));
    } else {
      FilterAll(allocations, (x: AllocationDoc) => true);
      FilterIsSubsequence(allocations, (x: AllocationDoc) => true);
    }
  }

  const ALLOCATION_HEADERS: seq<string> :=
    ["Allocation ID", "Guard", "Firearm", "Allocation Date", "Return Date", "Purpose", "Status",
     "Condition on Return"]

  function AllocationRow(a: AllocationDoc): Row {
    [("Allocation ID", OrNA(a.id)), ("Guard", OrNA(a.guardName)),
     ("Firearm", OrNA(a.firearmSerialNumber)), ("Allocation Date", OrNA(a.allocationDate)),
     ("Return Date", OrElse(a.returnDate, "Not Returned")), ("Purpose", OrNA(a.purpose)),
     ("Status", OrNA(a.status)), ("Condition on Return", OrNA(a.conditionOnReturn))]
  }

  lemma AllocationRowShape(a: AllocationDoc)
    ensures Keys(AllocationRow(a)) == ALLOCATION_HEADERS && DistinctKeys(AllocationRow(a))
    ensures a.returnDate.None? ==> AllocationRow(a)[4] == ("Return Date", "Not Returned")
  {
  }

  // ---------------------------------------------------------------------
  // Permit expiry
  // ---------------------------------------------------------------------

  datatype PermitDoc = PermitDoc(
    id: Option<string>, guardName: Option<string>, firearmSerialNumber: Option<string>,
    issueDate: Option<string>, expiryDate: int, expiryText: string, authority: Option<string>)

  datatype ReportStatus = EXPIRED | EXPIRING_SOON | ACTIVE

  function ReportStatusText(s: ReportStatus): string {
    match s
    case EXPIRED => "EXPIRED"
    case EXPIRING_SOON => "EXPIRING SOON"
    case ACTIVE => "ACTIVE"
  }

  /** The report's three bands; there is no caution band. */
  function PermitReportStatus(days: int): (s: ReportStatus)
    ensures s == EXPIRED <==> days < 0
    ensures s == EXPIRING_SOON <==> 0 <= days <= 30
    ensures s == ACTIVE <==> days > 30
  {
    if days < 0 then EXPIRED else if days <= 30 then EXPIRING_SOON else ACTIVE
  }

  /** The report agrees with the guard's dashboard, which splits the report's
      active band into caution (31 to 90 days) and active. */
  lemma ReportStatusAgreesWithDashboard(expiry: int, today: int)
    ensures var report := PermitReportStatus(GuardDashboard.DaysUntilExpiry(expiry, today));
      var dashboard := GuardDashboard.GetPermitStatus(expiry, today).status;
      (report == EXPIRED <==> dashboard == GuardDashboard.Expired)
      && (report == EXPIRING_SOON <==> dashboard == GuardDashboard.ExpiringSoon)
      && (report == ACTIVE <==> dashboard in {GuardDashboard.Caution, GuardDashboard.Active})
  {
  }

  const PERMIT_HEADERS: seq<string> :=
    ["Permit ID", "Guard", "Firearm", "Issue Date", "Expiry Date", "Days Until Expiry", "Status",
     "Authority"]

  function PermitRow(p: PermitDoc, today: int): Row {
    var days := GuardDashboard.DaysUntilExpiry(p.expiryDate, today);
    [("Permit ID", OrNA(p.id)), ("Guard", OrNA(p.guardName)),
     ("Firearm", OrNA(p.firearmSerialNumber)), ("Issue Date", OrNA(p.issueDate)),
     ("Expiry Date", p.expiryText), ("Days Until Expiry", IntToString(days)),
     ("Status", ReportStatusText(PermitReportStatus(days))), ("Authority", OrNA(p.authority))]
  }

  lemma PermitRowShape(p: PermitDoc, today: int)
    ensures Keys(PermitRow(p, today)) == PERMIT_HEADERS && DistinctKeys(PermitRow(p, today))
  {
  }

  // ---------------------------------------------------------------------
  // Maintenance
  // ---------------------------------------------------------------------

  datatype MaintenanceDoc = MaintenanceDoc(
    firearmSerialNumber: Option<string>, maintenanceType: Option<string>, date: Option<string>,
    performedBy: Option<string>, notes: Option<string>, nextDueDate: Option<string>,
    cost: Option<int>)

  /** `` record.cost ? `$${record.cost}` : 'N/A' ``: a zero cost is `'N/A'` too. */
  function CostText(cost: Option<int>): (s: string)
    ensures cost.None? || cost.value == 0 ==> s == "N/A"
    ensures cost.Some? && cost.value != 0 ==> s == "$" + IntToString(cost.value)
  {
    if cost.None? || cost.value == 0 then "N/A" else "$" + IntToString(cost.value)
  }

  const MAINTENANCE_HEADERS: seq<string> :=
    ["Firearm", "Maintenance Type", "Date", "Performed By", "Notes", "Next Due Date", "Cost"]

  function MaintenanceRow(m: MaintenanceDoc): Row {
    [("Firearm", OrNA(m.firearmSerialNumber)), ("Maintenance Type", OrNA(m.maintenanceType)),
     ("Date", OrNA(m.date)), ("Performed By", OrNA(m.performedBy)), ("Notes", OrNA(m.notes)),
     ("Next Due Date", OrNA(m.nextDueDate)), ("Cost", CostText(m.cost))]
  }

  lemma MaintenanceRowShape(m: MaintenanceDoc)
    ensures Keys(MaintenanceRow(m)) == MAINTENANCE_HEADERS && DistinctKeys(MaintenanceRow(m))
  {
  }

  // ---------------------------------------------------------------------
  // Exporting a report
  // ---------------------------------------------------------------------

  /** A non-empty report with one set of column names exports its header
      line and, for each row, a record that reads back as that row's values. */
  lemma ReportExport(rows: seq<Row>, headers: seq<string>, i: nat)
    requires |rows| > 0 && |headers| > 0 && Shaped(rows, headers) && i < |rows|
    ensures CsvLines(rows)[0] == Join(headers, ",")
    ensures ParseRecord(CsvLines(rows)[i + 1]) == Some(Values(rows[i]))
  {
    CsvLinesShape(rows, i);
    RecordRoundTrip(rows[i], headers);
    RowValuesInHeaderOrder(rows[i]);
  }

  class Reports {
    var loading: bool
    /** The last report generated, `null` before the first. */
    var data: Option<seq<Row>>
    var filterGuard: string

    constructor ()
      ensures !loading && data.None? && filterGuard == ""
    {
      loading, data, filterGuard := false, None, "";
    }

    method SetFilterGuard(guardId: string)
      modifies this
      ensures filterGuard == guardId && data == old(data) && loading == old(loading)
    {
      filterGuard := guardId;
    }

    /** A `generate*` function before its fetch. */
    method StartGenerating()
      modifies this
      ensures loading && data == old(data) && filterGuard == old(filterGuard)
    {
      loading := true;
    }

    /** A failed fetch (a non-OK answer or an exception): the previous
        report stays. */
    method GenerationFailed()
      modifies this
      ensures !loading && data == old(data) && filterGuard == old(filterGuard)
    {
      loading := false;
    }

    method FirearmAuditLoaded(firearms: seq<FirearmDoc>)
      modifies this
      ensures !loading && filterGuard == old(filterGuard)
      ensures data == Some(Map(firearms, AuditRow))
      ensures Shaped(data.value, AUDIT_HEADERS)
    {
      var rows := Map(firearms, AuditRow);
      forall i | 0 <= i < |rows|
        ensures Keys(rows[i]) == AUDIT_HEADERS && DistinctKeys(rows[i])
      {
        AuditRowShape(firearms[i]);
      }
      data := Some(rows);
      loading := false;
    }

    /** The allocation report honours the guard chosen when it is built. */
    method AllocationHistoryLoaded(allocations: seq<AllocationDoc>)
      modifies this
      ensures !loading && filterGuard == old(filterGuard)
      ensures data == Some(Map(GuardFiltered(allocations, filterGuard), AllocationRow))
      ensures Shaped(data.value, ALLOCATION_HEADERS)
    {
      var rows := Map(GuardFiltered(allocations, filterGuard), AllocationRow);
      forall i | 0 <= i < |rows|
        ensures Keys(rows[i]) == ALLOCATION_HEADERS && DistinctKeys(rows[i])
      {
        AllocationRowShape(GuardFiltered(allocations, filterGuard)[i]);
      }
      data := Some(rows);
      loading := false;
    }

    method PermitExpiryLoaded(permits: seq<PermitDoc>, today: int)
      modifies this
      ensures !loading && filterGuard == old(filterGuard)
      ensures data.Some? && |data.value| == |permits|
      ensures forall i :: 0 <= i < |permits| ==> data.value[i] == PermitRow(permits[i], today)
      ensures Shaped(data.value, PERMIT_HEADERS)
    {
      var rows := Map(permits, (p: PermitDoc) => PermitRow(p, today));
      forall i | 0 <= i < |rows|
        ensures Keys(rows[i]) == PERMIT_HEADERS && DistinctKeys(rows[i])
      {
        PermitRowShape(permits[i], today);
      }
      data := Some(rows);
      loading := false;
    }

    method MaintenanceLoaded(records: seq<MaintenanceDoc>)
      modifies this
      ensures !loading && filterGuard == old(filterGuard)
      ensures data == Some(Map(records, MaintenanceRow))
      ensures Shaped(data.value, MAINTENANCE_HEADERS)
    {
      var rows := Map(records, MaintenanceRow);
      forall i | 0 <= i < |rows|
        ensures Keys(rows[i]) == MAINTENANCE_HEADERS && DistinctKeys(rows[i])
      {
        MaintenanceRowShape(records[i]);
      }
      data := Some(rows);
      loading := false;
    }

    /** `exportToCSV`: the file's text, or nothing when there is no data. */
    method ExportCsv() returns (csv: Option<string>)
      ensures csv == ExportToCsv(data)
      ensures csv.None? <==> data.None? || data.value == []
    {
      csv := ExportToCsv(data);
    }
  }
}
