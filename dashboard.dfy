/**
 * The data derivations of the dashboard page (src/app/dashboard/page.js): the
 * normalisation of sensor rows into display items, the type/role/preference
 * filter, the sensor KPIs, the alert notifications with their dismissal and
 * severity filter, the unique-user count, the chart axis ticks and the avatar
 * initials.
 */
module Dashboard {
  import opened Wrappers
  import opened Text
  import opened Seqs

  // ----- sensor rows and items -----

  datatype Kind = Temperature | Humidity

  /** The fields of a sensor row that the page reads; `hasReading` is `latest_temp != null`. */
  datatype SensorRow = SensorRow(
    sensorId: string,
    sensorName: Option<string>,
    sensorType: Option<string>,
    status: Option<string>,
    accessRole: Option<string>,
    hasReading: bool)

  /** The tile colours: red, the orange `#FF9866`, gray and the green `#98CC37`. */
  datatype Color = Red | Orange | Gray | Green

  /** A normalised item; the reading and its display text are not modelled, only whether there is one. */
  datatype Item = Item(
    sensorId: string,
    kind: Kind,
    name: string,
    status: string,
    color: Color,
    accessRole: string,
    hasValue: bool)

  /** The display preferences the filters look at. */
  datatype Prefs = Prefs(showTemp: bool, showHumidity: bool)

  /** `(r.sensor_type || "").toLowerCase() === "humidity"`: every other type counts as temperature. */
  function KindOf(sensorType: Option<string>): Kind
  {
    if ToLower(OrElse(sensorType, "")) == "humidity" then Humidity else Temperature
  }

  /** The sensor type is compared without regard to case. */
  lemma KindIgnoresCase(t: string)
    ensures KindOf(Some(t)) == KindOf(Some(ToLower(t)))
  {
    ToLowerIdempotent(t);
    if t == "" {
      assert ToLower(t) == "";
    }
  }

  /** A missing or empty type, and any type other than humidity, is temperature. */
  lemma KindExamples()
    ensures KindOf(None) == Temperature && KindOf(Some("")) == Temperature
    ensures KindOf(Some("humidity")) == Humidity
    ensures KindOf(Some("temperature")) == Temperature
  {
    var h := "humidity";
    assert ToLower(h) == h by {
      forall k | 0 <= k < |h| ensures ToLower(h)[k] == h[k] {
        assert !IsAsciiUpper(h[k]);
      }
    }
    var t := "temperature";
    assert ToLower(t)[0] == 't';
  }

  /** The colour of a status, tested in the order alert, warning, offline, unknown. */
  function StatusColor(status: string): Color
  {
    if status == "alert" then Red
    else if status == "warning" then Orange
    else if status == "offline" then Gray
    else if status == "unknown" then Gray
    else Green
  }

  /** The statuses behind each colour. */
  lemma ColorBuckets(status: string)
    ensures StatusColor(status) == Red <==> status in {"alert"}
    ensures StatusColor(status) == Orange <==> status in {"warning"}
    ensures StatusColor(status) == Gray <==> status in {"offline", "unknown"}
    ensures StatusColor(status) == Green <==> status !in {"alert", "warning", "offline", "unknown"}
  {
  }

  /**
   * The `map` step of `loadDashboardData`: kind from the type, the name falling
   * back to the id, the status to "unknown", the role to "owner", and the colour
   * from the status the item ends up with.
   */
  function Normalize(r: SensorRow): (it: Item)
    ensures it.sensorId == r.sensorId && it.kind == KindOf(r.sensorType)
    ensures it.name == OrElse(r.sensorName, r.sensorId)
    ensures it.status != "" && (Truthy(r.status) ==> it.status == r.status.value) && (!Truthy(r.status) ==> it.status == "unknown")
    ensures it.accessRole != "" && (Truthy(r.accessRole) ==> it.accessRole == r.accessRole.value)
    ensures !Truthy(r.accessRole) ==> it.accessRole == "owner"
    ensures it.color == StatusColor(it.status)
    ensures it.hasValue == r.hasReading
  {
    var status := OrElse(r.status, "unknown");
    Item(r.sensorId, KindOf(r.sensorType), OrElse(r.sensorName, r.sensorId), status, StatusColor(status),
         OrElse(r.accessRole, "owner"), r.hasReading)
  }

  /** A row without a status is shown gray, as "unknown". */
  lemma MissingStatusIsGray(r: SensorRow)
    requires !Truthy(r.status)
    ensures Normalize(r).status == "unknown" && Normalize(r).color == Gray
  {
  }

  /** An item whose colour agrees with its status, as every normalised item's does. */
  predicate Coloured(it: Item)
  {
    it.color == StatusColor(it.status)
  }

  /** `(sensorRows || []).map(...)`; the sort by name that follows is not modelled. */
  function NormalizeRows(rows: seq<SensorRow>): (items: seq<Item>)
    ensures |items| == |rows|
    ensures forall k :: 0 <= k < |rows| ==> items[k] == Normalize(rows[k])
    ensures forall k :: 0 <= k < |items| ==> Coloured(items[k])
  {
    seq(|rows|, k requires 0 <= k < |rows| => Normalize(rows[k]))
  }

  // ----- visibleItems -----

  /** The preference flag for a kind. */
  predicate KindShown(k: Kind, prefs: Prefs)
  {
    match k
    case Temperature => prefs.showTemp
    case Humidity => prefs.showHumidity
  }

  /** The type part of `visibleItems`. */
  predicate TypeAllows(it: Item, filterType: string, prefs: Prefs)
  {
    if filterType == "temperature" then prefs.showTemp && it.kind == Temperature
    else if filterType == "humidity" then prefs.showHumidity && it.kind == Humidity
    else KindShown(it.kind, prefs)
  }

  /** The role part of `visibleItems`. */
  predicate RoleAllows(it: Item, selectedRole: string)
  {
    if selectedRole == "owned" then it.accessRole == "owner"
    else if selectedRole == "admin" then it.accessRole == "admin"
    else if selectedRole == "viewer" then it.accessRole == "viewer"
    else true
  }

  /** The callback passed to `items.filter`. */
  function Selection(filterType: string, selectedRole: string, prefs: Prefs): Item -> bool
  {
    (it: Item) => TypeAllows(it, filterType, prefs) && RoleAllows(it, selectedRole)
  }

  /** `visibleItems(items, filterType, selectedRole, prefs)`. */
  function VisibleItems(items: seq<Item>, filterType: string, selectedRole: string, prefs: Prefs): (r: seq<Item>)
    ensures |r| <= |items|
    ensures forall k :: 0 <= k < |r| ==> TypeAllows(r[k], filterType, prefs) && RoleAllows(r[k], selectedRole)
  {
    Filter(items, Selection(filterType, selectedRole, prefs))
  }

  /** The visible items are items of the input, in their input order. */
  lemma VisibleItemsOrdered(items: seq<Item>, filterType: string, selectedRole: string, prefs: Prefs)
    ensures IsSubsequence(VisibleItems(items, filterType, selectedRole, prefs), items)
  {
    FilterIsSubsequence(items, Selection(filterType, selectedRole, prefs));
  }

  /** An item is visible exactly when it is in the input and passes both the type and the role test. */
  lemma VisibleItemsMembership(items: seq<Item>, filterType: string, selectedRole: string, prefs: Prefs, x: Item)
    ensures x in VisibleItems(items, filterType, selectedRole, prefs) <==>
              x in items && TypeAllows(x, filterType, prefs) && RoleAllows(x, selectedRole)
  {
    FilterMembership(items, Selection(filterType, selectedRole, prefs), x);
  }

  /** The temperature chart holds temperature items only, and nothing when temperatures are hidden. */
  lemma TemperatureView(items: seq<Item>, selectedRole: string, prefs: Prefs)
    ensures forall x :: x in VisibleItems(items, "temperature", selectedRole, prefs) ==> x.kind == Temperature
    ensures !prefs.showTemp ==> VisibleItems(items, "temperature", selectedRole, prefs) == []
  {
    if !prefs.showTemp {
      FilterNone(items, Selection("temperature", selectedRole, prefs));
    }
  }

  /** The humidity chart holds humidity items only, and nothing when humidity is hidden. */
  lemma HumidityView(items: seq<Item>, selectedRole: string, prefs: Prefs)
    ensures forall x :: x in VisibleItems(items, "humidity", selectedRole, prefs) ==> x.kind == Humidity
    ensures !prefs.showHumidity ==> VisibleItems(items, "humidity", selectedRole, prefs) == []
  {
    if !prefs.showHumidity {
      FilterNone(items, Selection("humidity", selectedRole, prefs));
    }
  }

  /**
   * Under any other type selection and no role restriction, an item is dropped
   * exactly when the preference for its kind is off.
   */
  lemma AllTypesView(items: seq<Item>, filterType: string, prefs: Prefs, x: Item)
    requires filterType != "temperature" && filterType != "humidity"
    ensures x in VisibleItems(items, filterType, "all", prefs) <==> x in items && KindShown(x.kind, prefs)
  {
    VisibleItemsMembership(items, filterType, "all", prefs, x);
  }

  /** With both kinds shown and no role restriction, nothing is filtered out. */
  lemma EverythingShown(items: seq<Item>)
    ensures VisibleItems(items, "all", "all", Prefs(true, true)) == items
  {
    var p := Selection("all", "all", Prefs(true, true));
    forall k | 0 <= k < |items| ensures p(items[k]) {
      assert KindShown(items[k].kind, Prefs(true, true));
    }
    FilterAll(items, p);
  }

  /** Each role selection keeps the matching access role only. */
  lemma RoleView(items: seq<Item>, filterType: string, prefs: Prefs)
    ensures forall x :: x in VisibleItems(items, filterType, "owned", prefs) ==> x.accessRole == "owner"
    ensures forall x :: x in VisibleItems(items, filterType, "admin", prefs) ==> x.accessRole == "admin"
    ensures forall x :: x in VisibleItems(items, filterType, "viewer", prefs) ==> x.accessRole == "viewer"
  {
  }

  /** A role selection other than the three named ones restricts nothing. */
  lemma OtherRoleUnrestricted(items: seq<Item>, filterType: string, selectedRole: string, prefs: Prefs)
    requires selectedRole != "owned" && selectedRole != "admin" && selectedRole != "viewer"
    ensures VisibleItems(items, filterType, selectedRole, prefs) == VisibleItems(items, filterType, "all", prefs)
  {
    FilterCongruent(items, Selection(filterType, selectedRole, prefs), Selection(filterType, "all", prefs));
  }

  // ----- sensorsKPI -----

  datatype SensorKpi = SensorKpi(total: nat, error: nat, warning: nat, success: nat, unconfigured: nat, disconnected: nat)

  function StatusIn(statuses: set<string>): Item -> bool
  {
    (it: Item) => it.status in statuses
  }

  /** `filtered.filter((t) => statuses has t.status).length`. */
  function CountStatus(items: seq<Item>, statuses: set<string>): (n: nat)
    ensures n <= |items|
  {
    |Filter(items, StatusIn(statuses))|
  }

  function Unread(): Item -> bool
  {
    (it: Item) => !it.hasValue
  }

  /** `sensorsKPI` over the filtered items. */
  function SensorsKpi(filtered: seq<Item>): (kpi: SensorKpi)
    ensures kpi.total == |filtered|
    ensures kpi.error == CountStatus(filtered, {"alert"}) && kpi.warning == CountStatus(filtered, {"warning"})
    ensures kpi.success == CountStatus(filtered, {"ok"}) && kpi.unconfigured == CountStatus(filtered, {"offline", "unknown"})
    ensures kpi.disconnected == |Filter(filtered, Unread())|
    ensures kpi.error <= kpi.total && kpi.warning <= kpi.total && kpi.success <= kpi.total
    ensures kpi.unconfigured <= kpi.total && kpi.disconnected <= kpi.total
  {
    SensorKpi(
      |filtered|,
      CountStatus(filtered, {"alert"}),
      CountStatus(filtered, {"warning"}),
      CountStatus(filtered, {"ok"}),
      CountStatus(filtered, {"offline", "unknown"}),
      |Filter(filtered, Unread())|)
  }

  /** Counts over disjoint sets of statuses add up to the count over their union. */
  lemma {:induction false} CountStatusUnion(items: seq<Item>, s: set<string>, t: set<string>)
    requires s !! t
    ensures CountStatus(items, s) + CountStatus(items, t) == CountStatus(items, s + t)
  {
    if items != [] {
      CountStatusUnion(items[..|items| - 1], s, t);
    }
  }

  /** The alert, warning, ok and offline/unknown counts never add up to more than the total. */
  lemma KpiDisjointSum(filtered: seq<Item>)
    ensures var kpi := SensorsKpi(filtered);
              kpi.error + kpi.warning + kpi.success + kpi.unconfigured <= kpi.total
  {
    CountStatusUnion(filtered, {"alert"}, {"warning"});
    CountStatusUnion(filtered, {"alert"} + {"warning"}, {"ok"});
    CountStatusUnion(filtered, {"alert"} + {"warning"} + {"ok"}, {"offline", "unknown"});
  }

  function HasColor(c: Color): Item -> bool
  {
    (it: Item) => it.color == c
  }

  /** On normalised items the red, orange and gray tiles are counted by the error, warning and unconfigured KPIs. */
  lemma ColorsMatchKpi(items: seq<Item>)
    requires forall k :: 0 <= k < |items| ==> Coloured(items[k])
    ensures |Filter(items, HasColor(Red))| == SensorsKpi(items).error
    ensures |Filter(items, HasColor(Orange))| == SensorsKpi(items).warning
    ensures |Filter(items, HasColor(Gray))| == SensorsKpi(items).unconfigured
  {
    forall k | 0 <= k < |items| ensures HasColor(Red)(items[k]) == StatusIn({"alert"})(items[k]) {
      ColorBuckets(items[k].status);
    }
    FilterCongruent(items, HasColor(Red), StatusIn({"alert"}));
    forall k | 0 <= k < |items| ensures HasColor(Orange)(items[k]) == StatusIn({"warning"})(items[k]) {
      ColorBuckets(items[k].status);
    }
    FilterCongruent(items, HasColor(Orange), StatusIn({"warning"}));
    forall k | 0 <= k < |items| ensures HasColor(Gray)(items[k]) == StatusIn({"offline", "unknown"})(items[k]) {
      ColorBuckets(items[k].status);
    }
    FilterCongruent(items, HasColor(Gray), StatusIn({"offline", "unknown"}));
  }

  // ----- buildNotifications -----

  /** A notification; its title, description and date text are not modelled. */
  datatype Notice = Notice(id: nat, noticeType: string, sensorId: string, name: string, kind: Kind, status: string)

  /** The entry pushed for an alerting item: type "error" for status "alert" and "warning" otherwise. */
  function NoticeFor(it: Item, id: nat): (n: Notice)
    ensures n.id == id && n.sensorId == it.sensorId && n.name == it.name && n.kind == it.kind && n.status == it.status
    ensures n.noticeType == "error" <==> it.status == "alert"
    ensures n.noticeType == "warning" <==> it.status != "alert"
  {
    Notice(id, if it.status == "alert" then "error" else "warning", it.sensorId, it.name, it.kind, it.status)
  }

  function AlertSelection(isAlert: string -> bool): Item -> bool
  {
    (it: Item) => isAlert(it.status)
  }

  /** The items a notification is built for, in their order. */
  function Alerting(items: seq<Item>, isAlert: string -> bool): (r: seq<Item>)
    ensures |r| <= |items|
    ensures forall k :: 0 <= k < |r| ==> isAlert(r[k].status)
  {
    Filter(items, AlertSelection(isAlert))
  }

  /**
   * The KPIs and the number of notifications do not depend on the order of the
   * items, so sorting them first changes neither.
   */
  lemma CountsIgnoreOrder(a: seq<Item>, b: seq<Item>, selectedRole: string, prefs: Prefs, isAlert: string -> bool)
    requires multiset(a) == multiset(b)
    ensures SensorsKpi(VisibleItems(a, "all", selectedRole, prefs)) == SensorsKpi(VisibleItems(b, "all", selectedRole, prefs))
    ensures |Alerting(VisibleItems(a, "all", selectedRole, prefs), isAlert)| ==
            |Alerting(VisibleItems(b, "all", selectedRole, prefs), isAlert)|
  {
    var fa, fb := VisibleItems(a, "all", selectedRole, prefs), VisibleItems(b, "all", selectedRole, prefs);
    FilterPermutation(a, b, Selection("all", selectedRole, prefs));
    FilterPermutation(fa, fb, StatusIn({"alert"}));
    FilterPermutation(fa, fb, StatusIn({"warning"}));
    FilterPermutation(fa, fb, StatusIn({"ok"}));
    FilterPermutation(fa, fb, StatusIn({"offline", "unknown"}));
    FilterPermutation(fa, fb, Unread());
    FilterPermutation(fa, fb, AlertSelection(isAlert));
  }

  /** The notifications for a sequence of alerting items, numbered from `first`. */
  predicate NumberedFor(list: seq<Notice>, alerting: seq<Item>)
  {
    |list| == |alerting| && forall k :: 0 <= k < |list| ==> list[k] == NoticeFor(alerting[k], k + 1)
  }

  /**
   * `buildNotifications`: one entry per item whose status `isAlertStatus`
   * accepts, in input order, with ids 1, 2, 3, ….
   */
  method BuildNotifications(items: seq<Item>, isAlert: string -> bool) returns (list: seq<Notice>)
    ensures NumberedFor(list, Alerting(items, isAlert))
    ensures forall k :: 0 <= k < |list| ==> list[k].id == k + 1
  {
    list := [];
    var id := 1;
    var i := 0;
    while i < |items|
      invariant 0 <= i <= |items|
      invariant id == |list| + 1
      invariant NumberedFor(list, Alerting(items[..i], isAlert))
    {
      var it := items[i];
      assert items[..i + 1][..i] == items[..i];
      if isAlert(it.status) {
        list := list + [NoticeFor(it, id)];
        id := id + 1;
      }
      i := i + 1;
    }
    assert items[..i] == items;
  }

  /** The alerting items are items of the input, in input order, and include every alerting input item. */
  lemma AlertingOrdered(items: seq<Item>, isAlert: string -> bool, x: Item)
    ensures IsSubsequence(Alerting(items, isAlert), items)
    ensures x in Alerting(items, isAlert) <==> x in items && isAlert(x.status)
  {
    FilterIsSubsequence(items, AlertSelection(isAlert));
    FilterMembership(items, AlertSelection(isAlert), x);
  }

  /** Built notifications are errors or warnings only. */
  predicate ErrorsAndWarnings(list: seq<Notice>)
  {
    forall k :: 0 <= k < |list| ==> list[k].noticeType == "error" || list[k].noticeType == "warning"
  }

  lemma BuiltAreErrorsAndWarnings(list: seq<Notice>, alerting: seq<Item>)
    requires NumberedFor(list, alerting)
    ensures ErrorsAndWarnings(list)
  {
    forall k | 0 <= k < |list| ensures list[k].noticeType == "error" || list[k].noticeType == "warning" {
      assert list[k] == NoticeFor(alerting[k], k + 1);
    }
  }

  // ----- severity filter and dismissal -----

  function OfType(noticeType: string): Notice -> bool
  {
    (n: Notice) => n.noticeType == noticeType
  }

  /** The list the notification popup shows for the selected severity. */
  function FilterBySeverity(list: seq<Notice>, alertFilter: string): (r: seq<Notice>)
    ensures alertFilter == "all" ==> r == list
    ensures alertFilter != "all" ==> forall k :: 0 <= k < |r| ==> r[k].noticeType == alertFilter
  {
    if alertFilter == "all" then list else Filter(list, OfType(alertFilter))
  }

  /** A severity other than "all" keeps exactly the entries of that type, in order. */
  lemma SeverityMembership(list: seq<Notice>, alertFilter: string, n: Notice)
    requires alertFilter != "all"
    ensures n in FilterBySeverity(list, alertFilter) <==> n in list && n.noticeType == alertFilter
    ensures IsSubsequence(FilterBySeverity(list, alertFilter), list)
  {
    FilterMembership(list, OfType(alertFilter), n);
    FilterIsSubsequence(list, OfType(alertFilter));
  }

  /** The "Critical" and "Warning" counts add up to the whole list, and "Info" is always empty. */
  lemma {:induction false} SeverityCounts(list: seq<Notice>)
    requires ErrorsAndWarnings(list)
    ensures |FilterBySeverity(list, "error")| + |FilterBySeverity(list, "warning")| == |list|
    ensures FilterBySeverity(list, "info") == []
  {
    if list != [] {
      SeverityCounts(list[..|list| - 1]);
      assert list == list[..|list| - 1] + [list[|list| - 1]];
    } else {
      assert FilterBySeverity(list, "info") == [];
    }
  }

  /** The dashboard's `data` state. */
  datatype DashboardData = DashboardData(
    notifications: nat,
    users: Option<nat>,
    items: seq<Item>,
    sensors: SensorKpi,
    notificationsList: seq<Notice>)

  function NotId(id: nat): Notice -> bool
  {
    (n: Notice) => n.id != id
  }

  /** The dismiss button: the entries with that id are removed and the count follows the list. */
  function Dismiss(d: DashboardData, id: nat): (r: DashboardData)
    ensures forall k :: 0 <= k < |r.notificationsList| ==> r.notificationsList[k].id != id
    ensures r.notifications == |r.notificationsList| && |r.notificationsList| <= |d.notificationsList|
    ensures r.users == d.users && r.items == d.items && r.sensors == d.sensors
  {
    var rest := Filter(d.notificationsList, NotId(id));
    d.(notificationsList := rest, notifications := |rest|)
  }

  /** Dismissal keeps every other entry, in order, and dismissing the same id again changes nothing. */
  lemma DismissKeepsOthers(d: DashboardData, id: nat, n: Notice)
    ensures n in Dismiss(d, id).notificationsList <==> n in d.notificationsList && n.id != id
    ensures IsSubsequence(Dismiss(d, id).notificationsList, d.notificationsList)
    ensures Dismiss(Dismiss(d, id), id) == Dismiss(d, id)
  {
    FilterMembership(d.notificationsList, NotId(id), n);
    FilterIsSubsequence(d.notificationsList, NotId(id));
    FilterIdempotent(d.notificationsList, NotId(id));
  }

  /** Ids `first`, `first + 1`, … in list order. */
  predicate Consecutive(list: seq<Notice>)
  {
    forall k :: 0 <= k < |list| ==> list[k].id == k + 1
  }

  /** In a freshly built list the ids are distinct, so dismissing one of them removes exactly one entry. */
  lemma {:induction false} DismissRemovesOne(list: seq<Notice>, id: nat)
    requires Consecutive(list) && 1 <= id <= |list|
    ensures |Filter(list, NotId(id))| == |list| - 1
  {
    var init := list[..|list| - 1];
    assert Consecutive(init);
    if id == |list| {
      forall k | 0 <= k < |init| ensures NotId(id)(init[k]) {
      }
      FilterAll(init, NotId(id));
    } else {
      DismissRemovesOne(init, id);
    }
  }

  // ----- unique users -----

  /** An entry of a sensor's access list. */
  datatype Access = Access(userId: Option<string>, email: Option<string>)

  /** The key of an entry: its user id, else its lower-cased e-mail; None when it has neither. */
  function KeyOf(a: Access): (key: Option<string>)
    ensures Truthy(a.userId) ==> key == Some(a.userId.value)
    ensures !Truthy(a.userId) && Truthy(a.email) ==> key == Some(ToLower(a.email.value))
    ensures key.None? <==> !Truthy(a.userId) && !Truthy(a.email)
  {
    if Truthy(a.userId) then Some(a.userId.value)
    else if Truthy(a.email) then Some(ToLower(a.email.value))
    else None
  }

  /** The keys of one access list. */
  function KeysIn(access: seq<Access>): set<string>
  {
    if access == [] then {}
    else
      var last := access[|access| - 1];
      KeysIn(access[..|access| - 1]) + (if KeyOf(last).Some? then {KeyOf(last).value} else {})
  }

  /** The keys of all access lists together. */
  function AllKeys(shares: seq<seq<Access>>): set<string>
  {
    if shares == [] then {} else AllKeys(shares[..|shares| - 1]) + KeysIn(shares[|shares| - 1])
  }

  /** A key is collected exactly when some entry of some list has it. */
  lemma {:induction false} KeysInMembership(access: seq<Access>, key: string)
    ensures key in KeysIn(access) <==> exists j :: 0 <= j < |access| && KeyOf(access[j]) == Some(key)
  {
    if access != [] {
      var init := access[..|access| - 1];
      KeysInMembership(init, key);
      if key in KeysIn(init) {
        var j :| 0 <= j < |init| && KeyOf(init[j]) == Some(key);
        assert access[j] == init[j];
      }
      if exists j :: 0 <= j < |access| && KeyOf(access[j]) == Some(key) {
        var j :| 0 <= j < |access| && KeyOf(access[j]) == Some(key);
        if j < |init| {
          assert init[j] == access[j];
        }
      }
    }
  }

  /** `uniq.delete(String(currentUserEmail).toLowerCase())` when there is a current e-mail. */
  function Excluded(currentUserEmail: Option<string>): set<string>
  {
    if Truthy(currentUserEmail) then {ToLower(currentUserEmail.value)} else {}
  }

  /**
   * The users KPI: the distinct keys across every sensor's access list, less the
   * current user's lower-cased e-mail. The `Promise.all` over the per-sensor calls
   * becomes a sequential fold, and a failed call contributes an empty list.
   */
  method CountUsers(shares: seq<seq<Access>>, currentUserEmail: Option<string>) returns (count: nat)
    ensures count == |AllKeys(shares) - Excluded(currentUserEmail)|
  {
    var uniq: set<string> := {};
    var i := 0;
    while i < |shares|
      invariant 0 <= i <= |shares|
      invariant uniq == AllKeys(shares[..i])
    {
      var arr := shares[i];
      var j := 0;
      while j < |arr|
        invariant 0 <= j <= |arr|
        invariant uniq == AllKeys(shares[..i]) + KeysIn(arr[..j])
      {
        var key := KeyOf(arr[j]);
        assert arr[..j + 1][..j] == arr[..j];
        if key.Some? {
          uniq := uniq + {key.value};
        }
        j := j + 1;
      }
      assert arr[..j] == arr;
      assert shares[..i + 1][..i] == shares[..i];
      i := i + 1;
    }
    assert shares[..i] == shares;
    uniq := uniq - Excluded(currentUserEmail);
    count := |uniq|;
  }

  /** The current user's e-mail, in any case, is never among the counted keys. */
  lemma CurrentEmailNotCounted(shares: seq<seq<Access>>, email: string)
    requires email != ""
    ensures ToLower(email) !in AllKeys(shares) - Excluded(Some(email))
  {
  }

  /** Two entries whose e-mails differ only in case are one user. */
  lemma EmailCaseMerged()
    ensures |AllKeys([[Access(None, Some("Ann@x.io")), Access(None, Some("ann@x.io"))]]) - Excluded(None)| == 1
  {
    var a := [Access(None, Some("Ann@x.io")), Access(None, Some("ann@x.io"))];
    assert KeyOf(a[0]) == Some(ToLower("Ann@x.io"));
    assert ToLower("Ann@x.io") == "ann@x.io" by {
      var s := "Ann@x.io";
      forall k | 0 <= k < |s| ensures ToLower(s)[k] == "ann@x.io"[k] {
        if k > 0 { assert !IsAsciiUpper(s[k]); }
      }
    }
    assert ToLower("ann@x.io") == "ann@x.io" by {
      var s := "ann@x.io";
      forall k | 0 <= k < |s| ensures ToLower(s)[k] == s[k] {
        assert !IsAsciiUpper(s[k]);
      }
    }
    assert a[..1][..0] == [];
    assert KeysIn(a) == {"ann@x.io"};
    var all: seq<seq<Access>> := [a];
    assert all[..0] == [];
  }

  /**
   * An entry that carries a user id is keyed by that id, so the current user's
   * own entry is still counted when the server sends ids.
   */
  lemma CurrentUserWithIdCounted()
    ensures |AllKeys([[Access(Some("u1"), Some("me@x.io"))]]) - Excluded(Some("me@x.io"))| == 1
  {
    var a := [Access(Some("u1"), Some("me@x.io"))];
    assert a[..0] == [];
    assert KeysIn(a) == {"u1"};
    var all: seq<seq<Access>> := [a];
    assert all[..0] == [];
    assert AllKeys([a]) == {"u1"};
    assert ToLower("me@x.io") != "u1" by {
      assert |ToLower("me@x.io")| == 7;
    }
  }

  // ----- splitting, the e-mail local part and the avatar initials -----

  /** `s.split(sep)` for a one-character separator: the pieces between separators, empty ones included. */
  function Split(s: string, sep: char): (parts: seq<string>)
    ensures |parts| >= 1
    ensures forall k :: 0 <= k < |parts| ==> sep !in parts[k]
  {
    if s == [] then [""]
    else
      var rest := Split(s[1..], sep);
      if s[0] == sep then [""] + rest else [[s[0]] + rest[0]] + rest[1..]
  }

  /** `parts.join(sep)`. */
  function Join(parts: seq<string>, sep: char): string
    requires |parts| >= 1
  {
    if |parts| == 1 then parts[0] else parts[0] + [sep] + Join(parts[1..], sep)
  }

  /** Joining the pieces with the separator gives back the string that was split. */
  lemma {:induction false} SplitJoin(s: string, sep: char)
    ensures Join(Split(s, sep), sep) == s
  {
    if s != [] {
      var rest := Split(s[1..], sep);
      SplitJoin(s[1..], sep);
      if s[0] == sep {
        assert Split(s, sep)[1..] == rest;
      } else {
        var parts := Split(s, sep);
        if |rest| == 1 {
          assert parts == [[s[0]] + rest[0]];
        } else {
          assert parts[1..] == rest[1..];
          assert Join(rest, sep) == rest[0] + [sep] + Join(rest[1..], sep);
        }
      }
    }
  }

  /** The first piece is the part of `s` before its first separator, or all of `s`. */
  lemma {:induction false} FirstPiece(s: string, sep: char)
    ensures var p := Split(s, sep)[0];
              |p| <= |s| && p == s[..|p|] && sep !in p && (|p| < |s| ==> s[|p|] == sep)
  {
    if s != [] {
      FirstPiece(s[1..], sep);
    }
  }

  /** `email.split("@")[0]`: the local part of an address. */
  function LocalPart(email: string): (lp: string)
    ensures |lp| <= |email| && lp == email[..|lp|] && '@' !in lp
    ensures |lp| < |email| ==> email[|lp|] == '@'
  {
    FirstPiece(email, '@');
    Split(email, '@')[0]
  }

  /** The test `w !== ""`: the pieces whose `w[0]` is a character. */
  function NonEmpty(): (p: string -> bool)
    ensures forall w :: p(w) <==> w != ""
  {
    (w: string) => w != ""
  }

  /** The first character of each non-empty piece; `w[0]` of an empty piece is undefined and joins as nothing. */
  function FirstLetters(words: seq<string>): (r: string)
    ensures |r| == |Filter(words, NonEmpty())|
    ensures forall k :: 0 <= k < |r| ==> r[k] == Filter(words, NonEmpty())[k][0]
  {
    if words == [] then ""
    else
      assert words == [words[0]] + words[1..];
      FilterCons(words[0], words[1..], NonEmpty());
      (if words[0] == "" then "" else [words[0][0]]) + FirstLetters(words[1..])
  }

  /**
   * `getInitials(name)`: the upper-cased first letters of the first two non-empty
   * space-separated words (all of them when there are fewer).
   */
  function Initials(name: string): (r: string)
    ensures var words := Filter(Split(name, ' '), NonEmpty());
              && |r| == (if |words| < 2 then |words| else 2)
              && forall k :: 0 <= k < |r| ==> r[k] == UpperChar(words[k][0])
  {
    var letters := ToUpper(FirstLetters(Split(name, ' ')));
    if |letters| <= 2 then letters else letters[..2]
  }

  /** The initials never hold a space: each is a letter of a space-free piece, and upper-casing keeps spaces apart. */
  lemma InitialsHaveNoSpace(name: string)
    ensures ' ' !in Initials(name)
  {
    var pieces := Split(name, ' ');
    var words, r := Filter(pieces, NonEmpty()), Initials(name);
    forall k | 0 <= k < |r| ensures r[k] != ' ' {
      FilterMembership(pieces, NonEmpty(), words[k]);
      assert words[k][0] in words[k];
    }
  }

  /** A string without the separator is a single piece. */
  lemma {:induction false} NoSeparatorOnePiece(s: string, sep: char)
    requires sep !in s
    ensures Split(s, sep) == [s]
  {
    if s != [] {
      assert sep !in s[1..] by {
        forall k | 0 <= k < |s[1..]| ensures s[1..][k] != sep {
          assert s[1..][k] == s[k + 1];
        }
      }
      NoSeparatorOnePiece(s[1..], sep);
      assert s == [s[0]] + s[1..];
    }
  }

  /** A separator at `i`, with none before it, ends the first piece there. */
  lemma {:induction false} SplitAtFirst(s: string, i: nat, sep: char)
    requires i < |s| && s[i] == sep && sep !in s[..i]
    ensures Split(s, sep) == [s[..i]] + Split(s[i + 1..], sep)
  {
    if i > 0 {
      var t := s[1..][..i - 1];
      assert sep !in t by {
        forall k | 0 <= k < |t| ensures t[k] != sep {
          assert t[k] == s[..i][k + 1];
        }
      }
      assert s[..i][0] == s[0];
      SplitAtFirst(s[1..], i - 1, sep);
      assert s[1..][i..] == s[i + 1..];
      assert [s[0]] + s[1..][..i - 1] == s[..i];
    }
  }

  /** Two separator-free pieces joined by one separator split back into those two pieces. */
  lemma SplitPair(a: string, b: string, sep: char)
    requires sep !in a && sep !in b
    ensures Split(a + [sep] + b, sep) == [a, b]
  {
    var s := a + [sep] + b;
    assert s[|a|] == sep && s[..|a|] == a && s[|a| + 1..] == b;
    SplitAtFirst(s, |a|, sep);
    NoSeparatorOnePiece(b, sep);
  }

  /** A name of two words splits into those two words. */
  lemma SplitTwoWords()
    ensures Split("ann lee", ' ') == ["ann", "lee"]
  {
    var first, second := "ann", "lee";
    assert first + [' '] + second == "ann lee";
    assert ' ' !in first by {
      assert first[0] != ' ' && first[1] != ' ' && first[2] != ' ';
    }
    assert ' ' !in second by {
      assert second[0] != ' ' && second[1] != ' ' && second[2] != ' ';
    }
    SplitPair(first, second, ' ');
  }

  /** A name of two words, one space apart, gives the two words' upper-cased first letters. */
  lemma InitialsOfTwoWords(first: string, second: string)
    requires first != "" && second != "" && ' ' !in first && ' ' !in second
    ensures Initials(first + " " + second) == [UpperChar(first[0]), UpperChar(second[0])]
  {
    assert first + " " + second == first + [' '] + second;
    SplitPair(first, second, ' ');
    FilterAll([first, second], NonEmpty());
  }

  /** Two words give their two upper-cased first letters; an empty name gives none. */
  lemma InitialsExamples()
    ensures Initials("ann lee") == "AL"
    ensures Initials("") == ""
  {
    var first, second := "ann", "lee";
    assert ' ' !in first by {
      assert first[0] != ' ' && first[1] != ' ' && first[2] != ' ';
    }
    assert ' ' !in second by {
      assert second[0] != ' ' && second[1] != ' ' && second[2] != ' ';
    }
    InitialsOfTwoWords(first, second);
    assert first + " " + second == "ann lee";
    assert UpperChar('a') == 'A' && UpperChar('l') == 'L';
    FilterNone(Split("", ' '), NonEmpty());
  }

  // ----- chart axes -----

  /** An axis of a chart: its range and the step between tick labels. */
  datatype Axis = Axis(min: int, max: int, step: int)

  /** `axisConfigTemp(unit)`. */
  function TempAxis(unit: string): Axis
  {
    if unit == "F" then Axis(-25, 100, 25) else Axis(-30, 40, 10)
  }

  /** `axisConfigHum()`. */
  function HumidityAxis(): Axis
  {
    Axis(-25, 100, 25)
  }

  /** The tick values from `from` down to `min` in steps of `step`. */
  function TickValues(from: int, min: int, step: int): (r: seq<int>)
    requires step > 0
    decreases if from < min then 0 else from - min + 1
  {
    if from < min then [] else [from] + TickValues(from - step, min, step)
  }

  /**
   * The ticks are `from`, `from - step`, …: each one at least `min`, and the
   * value one step below the last is under `min`, so no tick is missing.
   */
  lemma {:induction false} TickValuesShape(from: int, min: int, step: int)
    requires step > 0
    ensures forall k :: 0 <= k < |TickValues(from, min, step)| ==>
              TickValues(from, min, step)[k] == from - k * step && TickValues(from, min, step)[k] >= min
    ensures from - |TickValues(from, min, step)| * step < min
    decreases if from < min then 0 else from - min + 1
  {
    if from >= min {
      TickValuesShape(from - step, min, step);
      var r := TickValues(from, min, step);
      var rest := TickValues(from - step, min, step);
      assert r == [from] + rest;
      forall k | 0 < k < |r| ensures r[k] == from - k * step && r[k] >= min {
        assert r[k] == rest[k - 1];
        assert from - step - (k - 1) * step == from - k * step;
      }
      assert from - step - |rest| * step == from - |r| * step;
    }
  }

  /**
   * `ticks(ax)`: the loop `for (v = max; v >= min; v -= step)`, collecting the
   * values (their formatting as labels is not modelled).
   */
  method Ticks(ax: Axis) returns (arr: seq<int>)
    requires ax.step > 0
    ensures arr == TickValues(ax.max, ax.min, ax.step)
  {
    arr := [];
    var v := ax.max;
    while v >= ax.min
      invariant arr + TickValues(v, ax.min, ax.step) == TickValues(ax.max, ax.min, ax.step)
      decreases v - ax.min + 1
    {
      assert TickValues(v, ax.min, ax.step) == [v] + TickValues(v - ax.step, ax.min, ax.step);
      arr := arr + [v];
      v := v - ax.step;
    }
  }

  /** The three axes the page draws. */
  lemma AxisTicks()
    ensures TickValues(TempAxis("F").max, TempAxis("F").min, TempAxis("F").step) == [100, 75, 50, 25, 0, -25]
    ensures TickValues(TempAxis("C").max, TempAxis("C").min, TempAxis("C").step) == [40, 30, 20, 10, 0, -10, -20, -30]
    ensures TickValues(HumidityAxis().max, HumidityAxis().min, HumidityAxis().step) == [100, 75, 50, 25, 0, -25]
  {
  }
}
