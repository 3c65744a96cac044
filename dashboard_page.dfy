/**
 * The dashboard page's state and the steps that change it: the session guard at
 * mount, the data load, the notification dismissal and the severity selection
 * (src/app/dashboard/page.js).
 */
module DashboardPage {
  import opened Wrappers
  import opened Http
  import opened Session
  import opened Seqs
  import opened Dashboard

  const SessionFailurePrefix := "Failed to verify session: "
  const LoadFailurePrefix := "Failed to fetch sensor data: "

  /** The outcome of `apiClient.getSensors()`: the rows (null when absent), or the error it threw. */
  datatype SensorsFetch = Rows(rows: Option<seq<SensorRow>>) | FetchError(message: string)

  /** `sensorRows || []`. */
  function RowsOrEmpty(rows: Option<seq<SensorRow>>): (r: seq<SensorRow>)
    ensures rows.Some? ==> r == rows.value
    ensures rows.None? ==> r == []
  {
    if rows.Some? then rows.value else []
  }

  /** The name shown in the header: `user?.email?.split("@")[0] || "User"`. */
  function DisplayName(user: Option<UserInfo>): (name: string)
    ensures name != ""
    ensures user.Some? && user.value.email.Some? && LocalPart(user.value.email.value) != "" ==>
              name == LocalPart(user.value.email.value)
    ensures !(user.Some? && user.value.email.Some? && LocalPart(user.value.email.value) != "") ==> name == "User"
  {
    if user.Some? && user.value.email.Some? then StrOr(LocalPart(user.value.email.value), "User") else "User"
  }

  /** An address `local@domain` is shown as `local`. */
  lemma DisplayNameIsLocalPart(local: string, domain: string)
    requires local != "" && '@' !in local
    ensures DisplayName(Some(UserInfo(Some(local + "@" + domain)))) == local
  {
    var e := local + "@" + domain;
    var lp := LocalPart(e);
    assert e[..|local|] == local && e[|local|] == '@';
  }

  /** `user?.email || null`. */
  function EmailOf(user: Option<UserInfo>): (email: Option<string>)
    ensures email.Some? <==> user.Some? && Truthy(user.value.email)
    ensures email.Some? ==> email == user.value.email
  {
    if user.Some? && Truthy(user.value.email) then user.value.email else None
  }

  class DashboardView {
    var username: string
    var currentUserEmail: Option<string>
    var error: string
    var loadingData: bool
    var alertFilter: string
    var prefs: Prefs
    var data: DashboardData
    var selectedRole: string
    var navigations: seq<string>
    const store: TokenStore

    /**
     * The count shown in the bell badge follows the list, every entry is an error
     * or a warning, and the KPIs were counted over no more items than are kept.
     */
    predicate Valid()
      reads this`data
    {
      && data.notifications == |data.notificationsList|
      && ErrorsAndWarnings(data.notificationsList)
      && data.sensors.total <= |data.items|
    }

    /** The initial `useState` values. */
    constructor(store: TokenStore)
      ensures Valid()
      ensures username == "User" && currentUserEmail == None && error == "" && loadingData
      ensures alertFilter == "all" && selectedRole == "all" && prefs == Prefs(true, true)
      ensures data == DashboardData(0, None, [], SensorKpi(0, 0, 0, 0, 0, 0), [])
      ensures navigations == [] && this.store == store
    {
      username := "User";
      currentUserEmail := None;
      error := "";
      loadingData := true;
      alertFilter := "all";
      prefs := Prefs(true, true);
      data := DashboardData(0, None, [], SensorKpi(0, 0, 0, 0, 0, 0), []);
      selectedRole := "all";
      navigations := [];
      this.store := store;
    }

    /**
     * The mount effect up to its `fetch`: with no stored token it redirects to the
     * login page and stops; otherwise it sends the token to be verified.
     */
    method StartSessionCheck() returns (token: Option<string>)
      modifies this`navigations
      ensures token.Some? <==> HasToken(store.authToken)
      ensures token.Some? ==> token == store.authToken && navigations == old(navigations)
      ensures token.None? ==> navigations == old(navigations) + ["/login"]
    {
      if !HasToken(store.authToken) {
        navigations := navigations + ["/login"];
        token := None;
      } else {
        token := store.authToken;
      }
    }

    /**
     * The rest of the guard, with the verification reply. A refused token is
     * removed before the redirect; when no answer came or the body did not parse,
     * the `catch` reports the error and redirects but keeps the token. An accepted
     * token sets the shown name and the current e-mail. Loading the preferences
     * that follows is not modelled.
     */
    method SessionVerified(reply: Reply)
      modifies this`username, this`currentUserEmail, this`error, this`navigations, store
      ensures reply.Responded? && !reply.ok ==>
                store.authToken == None && navigations == old(navigations) + ["/login"]
                && unchanged(this`username, this`currentUserEmail, this`error)
      ensures reply.FetchFailed? ==>
                error == SessionFailurePrefix + reply.reason && navigations == old(navigations) + ["/login"]
                && store.authToken == old(store.authToken) && unchanged(this`username, this`currentUserEmail)
      ensures reply.Responded? && reply.ok && reply.parsed.Unreadable? ==>
                error == SessionFailurePrefix + reply.parsed.reason && navigations == old(navigations) + ["/login"]
                && store.authToken == old(store.authToken) && unchanged(this`username, this`currentUserEmail)
      ensures Accepted(reply) ==>
                username == DisplayName(reply.parsed.body.user) && currentUserEmail == EmailOf(reply.parsed.body.user)
                && store.authToken == old(store.authToken) && unchanged(this`error, this`navigations)
    {
      match reply {
        case FetchFailed(reason) =>
          error := SessionFailurePrefix + reason;
          navigations := navigations + ["/login"];
        case Responded(ok, parsed) =>
          if !ok {
            store.Remove();
            navigations := navigations + ["/login"];
          } else {
            match parsed {
              case Unreadable(reason) =>
                error := SessionFailurePrefix + reason;
                navigations := navigations + ["/login"];
              case Json(body) =>
                username := DisplayName(body.user);
                currentUserEmail := EmailOf(body.user);
            }
          }
      }
    }

    /**
     * `loadDashboardData` once the sensor rows (and, for each row in turn, the access
     * list that `getSensorShares` returned, or an empty list where it failed) are in.
     * `sorted` is the normalised items after the `localeCompare` sort by name: the
     * comparator is left abstract, so any reordering of the normalised rows is
     * accepted. The sorted items are kept; the KPIs and the notifications (and so
     * their ids) are computed over the sorted items the current role and
     * preferences let through; the users KPI counts the distinct keys less the
     * current user. The KPIs and the number of notifications come out the same as
     * over the rows in their original order.
     */
    method LoadDashboardData(fetched: SensorsFetch, sorted: seq<Item>, shares: seq<seq<Access>>, isAlert: string -> bool)
      requires Valid()
      requires fetched.Rows? ==> multiset(sorted) == multiset(NormalizeRows(RowsOrEmpty(fetched.rows)))
      requires fetched.Rows? ==> |shares| == |RowsOrEmpty(fetched.rows)|
      modifies this`data, this`error, this`loadingData
      ensures Valid() && !loadingData
      ensures fetched.FetchError? ==> error == LoadFailurePrefix + fetched.message && data == old(data)
      ensures fetched.Rows? ==> error == old(error)
      ensures fetched.Rows? ==>
                var filtered := VisibleItems(sorted, "all", selectedRole, prefs);
                && data.items == sorted
                && data.sensors == SensorsKpi(filtered)
                && NumberedFor(data.notificationsList, Alerting(filtered, isAlert))
                && data.notifications == |data.notificationsList|
                && data.users == Some(|AllKeys(shares) - Excluded(currentUserEmail)|)
      ensures fetched.Rows? ==>
                var unsorted := VisibleItems(NormalizeRows(RowsOrEmpty(fetched.rows)), "all", selectedRole, prefs);
                && data.sensors == SensorsKpi(unsorted)
                && data.notifications == |Alerting(unsorted, isAlert)|
    {
      match fetched {
        case FetchError(message) =>
          error := LoadFailurePrefix + message;
        case Rows(rows) =>
          var filtered := VisibleItems(sorted, "all", selectedRole, prefs);
          var kpi := SensorsKpi(filtered);
          var usersCount := CountUsers(shares, currentUserEmail);
          var list := BuildNotifications(filtered, isAlert);
          BuiltAreErrorsAndWarnings(list, Alerting(filtered, isAlert));
          CountsIgnoreOrder(sorted, NormalizeRows(RowsOrEmpty(rows)), selectedRole, prefs, isAlert);
          data := DashboardData(|list|, Some(usersCount), sorted, kpi, list);
      }
      loadingData := false;
    }

    /** The close button of a notification: the entries with that id leave the list. */
    method DismissNotice(id: nat)
      requires Valid()
      modifies this`data
      ensures Valid()
      ensures data == Dismiss(old(data), id)
    {
      var before := data.notificationsList;
      data := Dismiss(data, id);
      DismissKeepsErrorsAndWarnings(before, id);
    }

    /** The entries the popup lists under the selected severity. */
    function ShownNotifications(): (shown: seq<Notice>)
      reads this`data, this`alertFilter
      ensures alertFilter == "all" ==> shown == data.notificationsList
      ensures forall n :: n in shown ==> n in data.notificationsList
    {
      ShownAreStored(data.notificationsList, alertFilter);
      FilterBySeverity(data.notificationsList, alertFilter)
    }

    /** A severity button: the list shown afterwards is the stored list filtered to it. */
    method SelectSeverity(key: string)
      modifies this`alertFilter
      ensures alertFilter == key
    {
      alertFilter := key;
    }
  }

  /** Every entry shown under a severity is a stored entry. */
  lemma ShownAreStored(list: seq<Notice>, alertFilter: string)
    ensures forall n :: n in FilterBySeverity(list, alertFilter) ==> n in list
  {
    if alertFilter != "all" {
      forall n | n in FilterBySeverity(list, alertFilter) ensures n in list {
        SeverityMembership(list, alertFilter, n);
      }
    }
  }

  /** Dismissal keeps only entries of the list, so they stay errors and warnings. */
  lemma DismissKeepsErrorsAndWarnings(list: seq<Notice>, id: nat)
    requires ErrorsAndWarnings(list)
    ensures ErrorsAndWarnings(Filter(list, NotId(id)))
  {
    var rest := Filter(list, NotId(id));
    forall k | 0 <= k < |rest| ensures rest[k].noticeType == "error" || rest[k].noticeType == "warning" {
      FilterMembership(list, NotId(id), rest[k]);
      var j :| 0 <= j < |list| && list[j] == rest[k];
    }
  }

  /** On the page the "Critical" and "Warning" counts always add up to the badge, and "Info" shows nothing. */
  lemma BadgeAddsUp(d: DashboardData)
    requires d.notifications == |d.notificationsList| && ErrorsAndWarnings(d.notificationsList)
    ensures |FilterBySeverity(d.notificationsList, "error")| + |FilterBySeverity(d.notificationsList, "warning")| == d.notifications
    ensures FilterBySeverity(d.notificationsList, "info") == []
  {
    SeverityCounts(d.notificationsList);
  }
}
