/** The phone activity's location-updates protocol, as values: the two
    flags of the state holder, the refresh spinner, the permission snackbar,
    and the log of calls made to the platform. Each function is one handler
    of the activity; the class in MobileMainActivity is proved to follow
    them. */
module LocationUpdates {

  datatype Permission = AccessFineLocation | AccessCoarseLocation

  /** The answers `checkSelfPermission` gives right now. */
  datatype Grants = Grants(fine: bool, coarse: bool) {
    predicate Any() { fine || coarse }
  }

  /** `permissions.getOrDefault(p, false)` on the permission-request result. */
  function GetOrDefault(results: map<Permission, bool>, p: Permission): bool {
    if p in results then results[p] else false
  }

  /** The activity's `snackbar` field: never made, or made and showing or
      dismissed. */
  datatype Snackbar = NoSnackbar | Snackbar(shown: bool)

  /** Calls into the platform that the model records but does not carry out. */
  datatype Event =
    | LaunchPermissionRequest
    | RequestLocationUpdates
    | RemoveLocationUpdates
    | GetCurrentLocation
    | ShowSnackbar
    | DismissSnackbar

  datatype Session = Session(
    running: bool,        // appState.locationUpdatesRunning
    precise: bool,        // appState.isLocationPrecise
    refreshing: bool,     // swipeRefreshLayout.isRefreshing
    snackbar: Snackbar,
    events: seq<Event>)

  /** Right after `onCreate`: flags off, no snackbar, the permission request
      launched. */
  const CREATED := Session(false, false, false, NoSnackbar, [LaunchPermissionRequest])

  /** Registrations with the location client that have not been removed. */
  function Outstanding(events: seq<Event>): int {
    if events == [] then 0
    else
      var last := events[|events| - 1];
      Outstanding(events[..|events| - 1])
        + (if last == RequestLocationUpdates then 1 else if last == RemoveLocationUpdates then -1 else 0)
  }

  /** The point of the `locationUpdatesRunning` guard: exactly one live
      registration while the flag is set, none while it is clear. */
  predicate Balanced(s: Session) {
    Outstanding(s.events) == if s.running then 1 else 0
  }

  lemma OutstandingAppend(events: seq<Event>, e: Event)
    ensures Outstanding(events + [e]) ==
      Outstanding(events) + (if e == RequestLocationUpdates then 1 else if e == RemoveLocationUpdates then -1 else 0)
  {
  }

  function Record(s: Session, e: Event): (r: Session)
    ensures r.events == s.events + [e]
    ensures e != RequestLocationUpdates && e != RemoveLocationUpdates ==> Outstanding(r.events) == Outstanding(s.events)
  {
    OutstandingAppend(s.events, e);
    s.(events := s.events + [e])
  }

  /** `startLocationUpdates`: nothing when already running; otherwise
      request updates and set the flag when either permission is granted. */
  function StartLocationUpdates(s: Session, g: Grants): (r: Session)
    ensures Balanced(s) ==> Balanced(r)
    ensures r.running <==> s.running || g.Any()
  {
    if s.running then s
    else if g.fine || g.coarse then
      OutstandingAppend(s.events, RequestLocationUpdates);
      Record(s, RequestLocationUpdates).(running := true)
    else s
  }

  /** `stopLocationUpdates`: nothing when not running; otherwise remove the
      updates and clear the flag. */
  function StopLocationUpdates(s: Session): (r: Session)
    ensures Balanced(s) ==> Balanced(r)
    ensures !r.running
  {
    if !s.running then s
    else
      OutstandingAppend(s.events, RemoveLocationUpdates);
      Record(s, RemoveLocationUpdates).(running := false)
  }

  /** `showPermissionSnackbar`: stop updates, then make and show a new
      snackbar. */
  function ShowPermissionSnackbar(s: Session): (r: Session)
    ensures Balanced(s) ==> Balanced(r)
    ensures !r.running && r.snackbar == Snackbar(true)
  {
    Record(StopLocationUpdates(s), ShowSnackbar).(snackbar := Snackbar(true))
  }

  /** `snackbar?.dismiss()`. */
  function DismissSnackbarIfAny(s: Session): (r: Session)
    ensures Outstanding(r.events) == Outstanding(s.events)
    ensures r.snackbar != Snackbar(true)
  {
    match s.snackbar
    case NoSnackbar => s
    case Snackbar(_) => Record(s, DismissSnackbar).(snackbar := Snackbar(false))
  }

  /** `refreshLocation`: spinner on; with neither permission, spinner off
      and the permission snackbar; otherwise dismiss the snackbar, ask for
      one fix and start updates unless they run already. */
  function RefreshLocation(s: Session, g: Grants): (r: Session)
    ensures Balanced(s) ==> Balanced(r)
  {
    var s1 := s.(refreshing := true);
    if !g.fine && !g.coarse then
      ShowPermissionSnackbar(s1.(refreshing := false))
    else
      var s2 := Record(DismissSnackbarIfAny(s1), GetCurrentLocation);
      if !s2.running then StartLocationUpdates(s2, g) else s2
  }

  /** The permission-request result: fine makes the location precise, coarse
      alone approximate, and either refreshes; with neither, the snackbar. */
  function PermissionsResult(s: Session, results: map<Permission, bool>, g: Grants): (r: Session)
    ensures Balanced(s) ==> Balanced(r)
  {
    if GetOrDefault(results, AccessFineLocation) then
      RefreshLocation(s.(precise := true), g)
    else if GetOrDefault(results, AccessCoarseLocation) then
      RefreshLocation(s.(precise := false), g)
    else
      ShowPermissionSnackbar(s)
  }

  /** A fix reached a listener, which ends in `updateViews`: the spinner
      stops; nothing else in the session changes. */
  function FixDelivered(s: Session): (r: Session)
    ensures Balanced(s) ==> Balanced(r)
    ensures !r.refreshing
  {
    s.(refreshing := false)
  }

  /** The callbacks the platform may deliver to the activity, in any order. */
  datatype Input =
    | PermissionsResultIn(results: map<Permission, bool>, granted: Grants)
    | Refresh(granted: Grants)    // swipe to refresh
    | Resume(granted: Grants)     // onResume
    | Pause                       // onPause
    | Fix                         // a location reached a listener

  function Step(s: Session, i: Input): Session {
    match i
    case PermissionsResultIn(results, g) => PermissionsResult(s, results, g)
    case Refresh(g) => RefreshLocation(s, g)
    case Resume(g) => RefreshLocation(s, g)
    case Pause => StopLocationUpdates(s)
    case Fix => FixDelivered(s)
  }

  function Run(s: Session, inputs: seq<Input>): Session
    decreases |inputs|
  {
    if inputs == [] then s else Run(Step(s, inputs[0]), inputs[1..])
  }

  /** Whatever the platform delivers, in whatever order, the activity never
      holds two registrations with the location client, and holds one
      exactly while `locationUpdatesRunning` is set. */
  lemma {:induction false} RunBalanced(inputs: seq<Input>)
    ensures Balanced(Run(CREATED, inputs))
  {
    assert Outstanding(CREATED.events) == 0 by {
      assert CREATED.events[..0] == [];
    }
    RunKeepsBalanced(CREATED, inputs);
  }

  lemma {:induction false} RunKeepsBalanced(s: Session, inputs: seq<Input>)
    requires Balanced(s)
    ensures Balanced(Run(s, inputs))
    decreases |inputs|
  {
    if inputs != [] {
      RunKeepsBalanced(Step(s, inputs[0]), inputs[1..]);
    }
  }

  /** Starting when already running changes nothing and requests nothing. */
  lemma StartWhenRunning(s: Session, g: Grants)
    requires s.running
    ensures StartLocationUpdates(s, g) == s
  {
  }

  /** Starting from stopped requests updates and sets the flag exactly when
      a permission is granted; otherwise nothing changes. */
  lemma StartWhenStopped(s: Session, g: Grants)
    requires !s.running
    ensures StartLocationUpdates(s, g).running <==> g.Any()
    ensures g.Any() ==> StartLocationUpdates(s, g) == s.(running := true, events := s.events + [RequestLocationUpdates])
    ensures !g.Any() ==> StartLocationUpdates(s, g) == s
  {
  }

  /** Stopping when stopped is a no-op; stopping twice is stopping once. */
  lemma StopIdempotent(s: Session)
    ensures !s.running ==> StopLocationUpdates(s) == s
    ensures s.running ==> StopLocationUpdates(s) == s.(running := false, events := s.events + [RemoveLocationUpdates])
    ensures StopLocationUpdates(StopLocationUpdates(s)) == StopLocationUpdates(s)
  {
  }

  /** Refreshing with neither permission: spinner off, updates stopped, the
      permission snackbar shown, no fix asked for. */
  lemma RefreshWithoutPermission(s: Session, g: Grants)
    requires !g.fine && !g.coarse
    ensures var r := RefreshLocation(s, g);
      && !r.refreshing && !r.running && r.snackbar == Snackbar(true)
      && r.precise == s.precise
      && r.events == StopLocationUpdates(s).events + [ShowSnackbar]
  {
  }

  /** Refreshing with some permission: the snackbar is dismissed (if any),
      one fix is asked for, updates end up running, and the spinner stays
      on until a fix arrives. */
  lemma RefreshWithPermission(s: Session, g: Grants)
    requires g.Any()
    ensures var r := RefreshLocation(s, g);
      && r.running && r.refreshing && r.snackbar != Snackbar(true)
      && r.precise == s.precise
      && r.events == DismissSnackbarIfAny(s).events + [GetCurrentLocation]
           + (if s.running then [] else [RequestLocationUpdates])
  {
  }

  /** The permission result sets `isLocationPrecise` from the fine grant,
      and with neither grant stops updates and leaves it alone. */
  lemma PermissionsResultPrecision(s: Session, results: map<Permission, bool>, g: Grants)
    ensures var r := PermissionsResult(s, results, g);
      && (GetOrDefault(results, AccessFineLocation) ==> r.precise)
      && (!GetOrDefault(results, AccessFineLocation) && GetOrDefault(results, AccessCoarseLocation) ==> !r.precise)
      && (!GetOrDefault(results, AccessFineLocation) && !GetOrDefault(results, AccessCoarseLocation) ==>
            r == ShowPermissionSnackbar(s) && !r.running && r.precise == s.precise)
  {
  }
}
