/** The phone app's activity: the location-updates protocol driven by
    refresh, lifecycle and permission callbacks, and the share, copy and
    maps buttons. */
module MobileMainActivity {
  import opened LocationCode
  import opened MobileAppState
  import opened LocationUpdates

  const PLUS_CODES_URL := "http://plus.codes/"
  const MAPS_PACKAGE := "com.google.android.apps.maps"
  const CLIP_LABEL := "OpenLocationCode"
  const MAPS_MISSING_TOAST := "App Not Installed"

  /** The link the maps button opens for a code. */
  function MapsUri(code: string): (uri: string)
    ensures |uri| == |PLUS_CODES_URL| + |code|
    ensures uri[..|PLUS_CODES_URL|] == PLUS_CODES_URL && uri[|PLUS_CODES_URL|..] == code
  {
    PLUS_CODES_URL + code
  }

  /** Reads the code back out of a plus.codes link. */
  function CodeOfMapsUri(uri: string): Option<string> {
    if |uri| >= |PLUS_CODES_URL| && uri[..|PLUS_CODES_URL|] == PLUS_CODES_URL
    then Some(uri[|PLUS_CODES_URL|..])
    else None
  }

  lemma MapsUriRoundTrip(code: string)
    ensures CodeOfMapsUri(MapsUri(code)) == Some(code)
  {
  }

  /** Different codes never share a link. */
  lemma MapsUriInjective(a: string, b: string)
    ensures MapsUri(a) == MapsUri(b) <==> a == b
  {
  }

  /** What a button press asks the platform to do. */
  datatype Action =
    | NoAction
    | ShareText(text: string, mimeType: string)
    | CopyToClipboard(clipLabel: string, clipText: Option<string>)
    | ViewInMaps(uri: string, package: string)
    | ShowToast(message: string)

  class MainActivity {
    const appState: OlcAppState
    /** The activity's own references to the views it handed the state
        holder; the swipe-refresh spinner is one object for both. */
    const views: Views
    var snackbar: Snackbar
    /** Calls made into the platform, in order. */
    ghost var events: seq<Event>

    ghost predicate Valid()
      reads this, appState
    {
      views == appState.views && appState.Valid()
    }

    ghost function Snapshot(): Session
      reads this, appState, views
    {
      Session(appState.locationUpdatesRunning, appState.isLocationPrecise, views.refreshing, snackbar, events)
    }

    /** `onCreate`: bind the views, make the state holder, launch the
        permission request. */
    constructor (layout: Labels, encode: Encoder)
      ensures Valid() && fresh(appState) && fresh(views)
      ensures Snapshot() == CREATED
      ensures appState.Code() == INITIAL && views.Shown() == layout
      ensures appState.encode == encode
    {
      var v := new Views(layout);
      views := v;
      appState := new OlcAppState(v, encode);
      snackbar := NoSnackbar;
      events := [LaunchPermissionRequest];
    }

    method StartLocationUpdates(granted: Grants)
      requires Valid()
      modifies this, appState
      ensures Valid()
      ensures Snapshot() == LocationUpdates.StartLocationUpdates(old(Snapshot()), granted)
      ensures appState.Code() == old(appState.Code())
    {
      if appState.locationUpdatesRunning {
        return;
      }
      if granted.fine || granted.coarse {
        events := events + [RequestLocationUpdates];
        appState.locationUpdatesRunning := true;
      }
    }

    method StopLocationUpdates()
      requires Valid()
      modifies this, appState
      ensures Valid()
      ensures Snapshot() == LocationUpdates.StopLocationUpdates(old(Snapshot()))
      ensures appState.Code() == old(appState.Code())
    {
      if !appState.locationUpdatesRunning {
        return;
      }
      events := events + [RemoveLocationUpdates];
      appState.locationUpdatesRunning := false;
    }

    method ShowPermissionSnackbar()
      requires Valid()
      modifies this, appState
      ensures Valid()
      ensures Snapshot() == LocationUpdates.ShowPermissionSnackbar(old(Snapshot()))
      ensures appState.Code() == old(appState.Code())
    {
      StopLocationUpdates();
      snackbar := Snackbar(true);
      events := events + [ShowSnackbar];
    }

    /** `refreshLocation`; the fix it asks for arrives later, through
        `OnCurrentLocation`. */
    method RefreshLocation(granted: Grants)
      requires Valid()
      modifies this, appState, views
      ensures Valid()
      ensures Snapshot() == LocationUpdates.RefreshLocation(old(Snapshot()), granted)
      ensures appState.Code() == old(appState.Code()) && views.Shown() == old(views.Shown())
    {
      views.refreshing := true;
      if !granted.fine && !granted.coarse {
        views.refreshing := false;
        ShowPermissionSnackbar();
        return;
      }
      if snackbar.Snackbar? {
        snackbar := Snackbar(false);
        events := events + [DismissSnackbar];
      }
      events := events + [GetCurrentLocation];
      if !appState.locationUpdatesRunning {
        StartLocationUpdates(granted);
      }
    }

    /** The permission-request result handler. */
    method OnPermissionsResult(results: map<Permission, bool>, granted: Grants)
      requires Valid()
      modifies this, appState, views
      ensures Valid()
      ensures Snapshot() == LocationUpdates.PermissionsResult(old(Snapshot()), results, granted)
      ensures appState.Code() == old(appState.Code()) && views.Shown() == old(views.Shown())
    {
      if GetOrDefault(results, AccessFineLocation) {
        appState.isLocationPrecise := true;
        RefreshLocation(granted);
      } else if GetOrDefault(results, AccessCoarseLocation) {
        appState.isLocationPrecise := false;
        RefreshLocation(granted);
      } else {
        ShowPermissionSnackbar();
      }
    }

    method OnPause()
      requires Valid()
      modifies this, appState
      ensures Valid()
      ensures Snapshot() == LocationUpdates.StopLocationUpdates(old(Snapshot()))
      ensures appState.Code() == old(appState.Code())
    {
      StopLocationUpdates();
    }

    method OnResume(granted: Grants)
      requires Valid()
      modifies this, appState, views
      ensures Valid()
      ensures Snapshot() == LocationUpdates.RefreshLocation(old(Snapshot()), granted)
      ensures appState.Code() == old(appState.Code()) && views.Shown() == old(views.Shown())
    {
      RefreshLocation(granted);
    }

    /** The success listener of the one-shot fix asked for by a refresh.
        The platform completes with null when it has no fix; the listener
        then dereferences it and throws before writing anything, which the
        result `crashed` reports. */
    method OnCurrentLocation(fix: Option<Location>, lastUpdatedMessage: string) returns (crashed: bool)
      requires Valid()
      modifies appState, views
      ensures Valid()
      ensures crashed <==> fix.None?
      ensures fix.None? ==> unchanged(appState) && unchanged(views)
      ensures fix.Some? ==>
        var olc := appState.encode(fix.value.latitude, fix.value.longitude);
        && Snapshot() == FixDelivered(old(Snapshot()))
        && appState.Code() == Assign(old(appState.Code()), Some(olc))
        && views.Shown() == Labels(olc[0..4], olc[4..8], olc[8..11], lastUpdatedMessage, !appState.isLocationPrecise)
    {
      if fix == None {
        return true;
      }
      var olc := appState.encode(fix.value.latitude, fix.value.longitude);
      appState.UpdateAll(olc, lastUpdatedMessage);
      crashed := false;
    }

    /** Share button: nothing until a code has arrived, then share it as
        plain text. */
    method OnShareClicked() returns (a: Action)
      ensures a == NoAction <==> appState.fullLocationCode.None?
      ensures appState.fullLocationCode.Some? ==> a == ShareText(appState.fullLocationCode.value, "text/plain")
    {
      if appState.fullLocationCode == None {
        return NoAction;
      }
      a := ShareText(appState.fullLocationCode.value, "text/plain");
    }

    /** Copy button: no null guard, so before any code arrives the clip
        holds null. */
    method OnCopyClicked() returns (a: Action)
      ensures a.CopyToClipboard? && a.clipLabel == CLIP_LABEL
      ensures a.clipText == appState.fullLocationCode
    {
      a := CopyToClipboard(CLIP_LABEL, appState.fullLocationCode);
    }

    /** Maps button: nothing until a code has arrived; then open its
        plus.codes link in the maps app, or a toast when that app is
        missing. */
    method OnMapsClicked(mapsInstalled: bool) returns (a: Action)
      ensures a == NoAction <==> appState.fullLocationCode.None?
      ensures a.ViewInMaps? <==> appState.fullLocationCode.Some? && mapsInstalled
      ensures a.ViewInMaps? ==> CodeOfMapsUri(a.uri) == appState.fullLocationCode && a.package == MAPS_PACKAGE
      ensures appState.fullLocationCode.Some? && !mapsInstalled ==> a == ShowToast(MAPS_MISSING_TOAST)
    {
      if appState.fullLocationCode == None {
        return NoAction;
      }
      var uri := MapsUri(appState.fullLocationCode.value);
      if mapsInstalled {
        MapsUriRoundTrip(appState.fullLocationCode.value);
        a := ViewInMaps(uri, MAPS_PACKAGE);
      } else {
        a := ShowToast(MAPS_MISSING_TOAST);
      }
    }
  }
}
