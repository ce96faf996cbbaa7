/** The alerts panel (`src/components/AlertsCenter.jsx`): the list updates
    after marking an alert read or deleting it, the unread counter, the
    icon and colour tables with their fallback, and the query the filter
    selects. */
module AlertsCenter {
  import opened Common

  datatype Alert = Alert(id: string, kind: string, priority: string, message: string, isRead: bool)

  /** `a.id === alertId ? { ...a, isRead: true } : a`. */
  function MarkOne(a: Alert, alertId: string): Alert {
    if a.id == alertId then a.(isRead := true) else a
  }

  /** The list after `markAsRead(alertId)` succeeds. */
  function MarkAsRead(alerts: seq<Alert>, alertId: string): (r: seq<Alert>)
    ensures |r| == |alerts|
    ensures forall i :: 0 <= i < |alerts| && alerts[i].id == alertId ==> r[i] == alerts[i].(isRead := true)
    ensures forall i :: 0 <= i < |alerts| && alerts[i].id != alertId ==> r[i] == alerts[i]
  {
    if alerts == [] then [] else [MarkOne(alerts[0], alertId)] + MarkAsRead(alerts[1..], alertId)
  }

  /** Marking twice is marking once. */
  lemma MarkAsReadIdempotent(alerts: seq<Alert>, alertId: string)
    ensures MarkAsRead(MarkAsRead(alerts, alertId), alertId) == MarkAsRead(alerts, alertId)
  {
  }

  function NotId(alertId: string): Alert -> bool {
    (a: Alert) => a.id != alertId
  }

  /** The list after `deleteAlert(alertId)` succeeds. */
  function DeleteAlert(alerts: seq<Alert>, alertId: string): seq<Alert> {
    Filter(alerts, NotId(alertId))
  }

  /** Deleting removes exactly the alerts with that id and keeps the order
      of the rest. */
  lemma DeleteAlertExactly(alerts: seq<Alert>, alertId: string, a: Alert)
    ensures a in DeleteAlert(alerts, alertId) <==> a in alerts && a.id != alertId
    ensures SubsequenceOf(DeleteAlert(alerts, alertId), alerts)
  {
    FilterMembers(alerts, NotId(alertId), a);
    FilterIsSubsequence(alerts, NotId(alertId));
  }

  function IsUnread(): Alert -> bool {
    (a: Alert) => !a.isRead
  }

  /** `unreadCount`. */
  function UnreadCount(alerts: seq<Alert>): (n: nat)
    ensures n <= |alerts|
  {
    Count(alerts, IsUnread())
  }

  predicate UniqueIds(alerts: seq<Alert>) {
    forall i, j :: 0 <= i < j < |alerts| ==> alerts[i].id != alerts[j].id
  }

  lemma UniqueIdsTail(alerts: seq<Alert>)
    requires alerts != [] && UniqueIds(alerts)
    ensures UniqueIds(alerts[1..])
    ensures forall i :: 0 <= i < |alerts[1..]| ==> alerts[1..][i].id != alerts[0].id
  {
    forall i | 0 <= i < |alerts[1..]| ensures alerts[1..][i].id != alerts[0].id {
      assert alerts[1..][i] == alerts[i + 1];
    }
  }

  /** Marking or deleting an alert whose id is nowhere in the list changes
      nothing. */
  lemma {:induction false} AbsentIdUnchanged(alerts: seq<Alert>, alertId: string)
    requires forall i :: 0 <= i < |alerts| ==> alerts[i].id != alertId
    ensures MarkAsRead(alerts, alertId) == alerts
    ensures DeleteAlert(alerts, alertId) == alerts
  {
    forall i | 0 <= i < |alerts| ensures NotId(alertId)(alerts[i]) {
    }
    FilterAll(alerts, NotId(alertId));
  }

  /** With unique ids, marking an unread alert read lowers the counter by
      exactly one. */
  lemma {:induction false} MarkAsReadCount(alerts: seq<Alert>, k: nat)
    requires UniqueIds(alerts) && k < |alerts| && !alerts[k].isRead
    ensures UnreadCount(MarkAsRead(alerts, alerts[k].id)) == UnreadCount(alerts) - 1
  {
    var id := alerts[k].id;
    var r := MarkAsRead(alerts, id);
    assert r == [MarkOne(alerts[0], id)] + MarkAsRead(alerts[1..], id);
    assert alerts == [alerts[0]] + alerts[1..];
    UniqueIdsTail(alerts);
    if k == 0 {
      AbsentIdUnchanged(alerts[1..], id);
    } else {
      assert alerts[1..][k - 1] == alerts[k];
      MarkAsReadCount(alerts[1..], k - 1);
      assert alerts[0].id != id;
    }
  }

  /** With unique ids, deleting an unread alert lowers the counter by
      exactly one, and deleting a read one leaves it. */
  lemma {:induction false} DeleteAlertCount(alerts: seq<Alert>, k: nat)
    requires UniqueIds(alerts) && k < |alerts|
    ensures UnreadCount(DeleteAlert(alerts, alerts[k].id)) == UnreadCount(alerts) - (if alerts[k].isRead then 0 else 1)
  {
    var id := alerts[k].id;
    assert alerts == [alerts[0]] + alerts[1..];
    UniqueIdsTail(alerts);
    assert Filter(alerts, IsUnread()) ==
      (if !alerts[0].isRead then [alerts[0]] else []) + Filter(alerts[1..], IsUnread());
    if k == 0 {
      AbsentIdUnchanged(alerts[1..], id);
      assert DeleteAlert(alerts, id) == DeleteAlert(alerts[1..], id);
    } else {
      assert alerts[1..][k - 1] == alerts[k];
      DeleteAlertCount(alerts[1..], k - 1);
    }
  }

  /** What the component keeps besides the list: the alert opened in the
      detail view. */
  datatype Panel = Panel(alerts: seq<Alert>, selected: Option<Alert>)

  /** A successful delete closes the detail view. */
  function AfterDelete(p: Panel, alertId: string): (r: Panel)
    ensures r.selected.None?
    ensures r.alerts == DeleteAlert(p.alerts, alertId)
  {
    Panel(DeleteAlert(p.alerts, alertId), None)
  }

  /** A successful mark keeps the detail view as it was. */
  function AfterMarkAsRead(p: Panel, alertId: string): (r: Panel)
    ensures r.selected == p.selected
    ensures r.alerts == MarkAsRead(p.alerts, alertId)
  {
    Panel(MarkAsRead(p.alerts, alertId), p.selected)
  }

  // ---------------------------------------------------------------------
  // Tables and the query
  // ---------------------------------------------------------------------

  const ICONS: map<string, string> := map[
    "permit_expiry" := "\U{23F0}",
    "maintenance_due" := "\U{1F527}",
    "low_stock" := "\U{1F4E6}",
    "allocation" := "\U{1F3AF}",
    "general" := "\U{2139}\U{FE0F}"]

  const COLORS: map<string, string> := map[
    "permit_expiry" := "#ff6b6b",
    "maintenance_due" := "#ffa500",
    "low_stock" := "#ffd700",
    "allocation" := "#4ecdc4",
    "general" := "#95e1d3"]

  /** `getAlertIcon`: the table entry, or the general icon. */
  function AlertIcon(kind: string): (icon: string)
    ensures kind in ICONS ==> icon == ICONS[kind]
    ensures kind !in ICONS ==> icon == ICONS["general"]
  {
    if kind in ICONS then ICONS[kind] else "\U{2139}\U{FE0F}"
  }

  /** `getAlertColor`: the table entry, or the general colour. */
  function AlertColor(kind: string): (color: string)
    ensures kind in COLORS ==> color == COLORS[kind]
    ensures kind !in COLORS ==> color == "#95e1d3"
  {
    if kind in COLORS then COLORS[kind] else "#95e1d3"
  }

  /** The two tables cover the same types, so an unknown type is drawn
      exactly like a general alert. */
  lemma UnknownTypeLooksGeneral(kind: string)
    requires kind !in ICONS
    ensures AlertIcon(kind) == AlertIcon("general") && AlertColor(kind) == AlertColor("general")
    ensures AlertColor(kind) == "#95e1d3"
  {
    assert ICONS.Keys == COLORS.Keys;
  }

  /** The query string `fetchAlerts` appends. */
  function AlertsQuery(filter: string): (q: string)
    ensures filter == "unread" <==> q == "?isRead=false"
    ensures filter != "unread" <==> q == "?limit=100"
  {
    if filter == "unread" then "?isRead=false" else "?limit=100"
  }
}
