# OpenLocator: location-code state and location-updates protocol

OpenLocator shows the device's position as an Open Location Code (a "plus
code"), split for display into a region prefix, an area segment and a plus
suffix. It has a phone app and a watch app. This Dafny project models the
two pieces of the apps that hold state.

1. **The location-code state holder (`OlcAppState`), watch and phone.**
   The `fullLocationCode` setter ignores `null`, so once a code is stored it
   is never cleared. A code that is assigned is stored and sliced: region is
   characters [0,4), area [4,8), plus [8,11). Until the first code arrives,
   the segments hold the placeholders `XXXX`, `YYYY` and `+ZZ`.
   - `location_code.dfy` (module `LocationCode`) gives this record as a
     value (`CodeState`) and the setter as the function `Assign`. It proves
     the slicing round trip, the invariant the setter keeps, idempotence,
     stickiness, and "last non-null value wins" over any series of
     assignments.
   - `wear_app_state.dfy` and `mobile_app_state.dfy` model the two Kotlin
     classes as Dafny classes. Each setter is proved to follow `Assign`.
   - The phone holder also has two flags: `isLocationPrecise` and
     `locationUpdatesRunning`.
   - Its `updateViews` writes the segments into the text views. It shows the
     "approximate location" label exactly when the location is not precise,
     and it stops the refresh spinner.
   - Its `updateAll` stores a code and then calls `updateViews`.
   - Its location callback ignores an empty result. Otherwise it encodes the
     last fix and calls `updateAll`.
2. **The location-updates protocol of the phone `MainActivity`.**
   `startLocationUpdates` and `stopLocationUpdates` are guarded by
   `locationUpdatesRunning` and by the permission check. Three callers drive
   them: `refreshLocation`, `showPermissionSnackbar` and the
   permission-result handler.
   - `location_updates.dfy` (module `LocationUpdates`) states each handler
     as a function on a `Session` value. A `Session` holds the two flags,
     the spinner, the snackbar and a log of the calls made to the platform.
   - The main theorem is `RunBalanced`. It covers any sequence of refreshes,
     resumes, pauses, permission results and delivered fixes. After every
     such sequence, the activity holds exactly one registration with the
     location client while `locationUpdatesRunning` is set, and none
     while it is clear.
   - `main_activity.dfy` models the activity as a class. Each handler is
     proved to follow its `LocationUpdates` function.
   - The same file models the share, copy and maps buttons as methods that
     return the action they ask of the platform. Share and maps do nothing
     before a code has arrived. Copy has no such guard, so before any code
     arrives it puts `null` on the clipboard.
   - The maps link is `http://plus.codes/` followed by the full code. A
     round-trip lemma shows the code can be read back out of the link.

Inputs from the platform are parameters of the model:
- The two answers of `checkSelfPermission` are a `Grants(fine, coarse)` value.
- The permission-request result is a `map<Permission, bool>`, read with
  `getOrDefault(_, false)`.
- A location fix is a `Location(latitude, longitude)`. The one-shot fix may be null (`None`).
- The encoding library is an `Encoder` value: any function from coordinates
  to a string of at least 11 characters.
- Whether the maps app is installed is a boolean.
- The formatted "last updated" message is a string.

Calls the model records but does not carry out are events in a ghost log:
- requesting and removing location updates;
- asking for one fix;
- showing and dismissing the snackbar;
- launching the permission request.

## Model

| member | source | states |
|---|---|---|
| `LocationCode.Slice` | wear/src/main/java/com/leocatto/olcapp/presentation/OlcAppState.kt:10-12 | the segments have lengths 4, 4 and 3 and, read in order, are exactly the first 11 characters of the code |
| `LocationCode.SliceJoined` | wear/src/main/java/com/leocatto/olcapp/presentation/OlcAppState.kt:10-12 | slicing the concatenation of well-formed segments gives those segments back (round trip) |
| `LocationCode.SliceDeterminedByPrefix` | wear/src/main/java/com/leocatto/olcapp/presentation/OlcAppState.kt:10-12 | two codes have equal segments if and only if their first 11 characters agree |
| `LocationCode.Assign` | wear/src/main/java/com/leocatto/olcapp/presentation/OlcAppState.kt:5-12 | the setter keeps the invariant (placeholders with no code, slices of the code after) and never turns a stored code back into null |
| `LocationCode.InitialConsistent` | wear/src/main/java/com/leocatto/olcapp/presentation/OlcAppState.kt:4-17 | a fresh holder has no code, its segments are `XXXX`, `YYYY`, `+ZZ`, and it satisfies the invariant |
| `LocationCode.AssignNullUnchanged` | wear/src/main/java/com/leocatto/olcapp/presentation/OlcAppState.kt:7 | assigning null leaves the code and all three segments unchanged |
| `LocationCode.AssignCode` | wear/src/main/java/com/leocatto/olcapp/presentation/OlcAppState.kt:9-12 | assigning a code stores it and sets the segments to its characters [0,4), [4,8) and [8,11), which together are its first 11 characters |
| `LocationCode.AssignIdempotent` | wear/src/main/java/com/leocatto/olcapp/presentation/OlcAppState.kt:7-12 | assigning the same value twice gives the same state as assigning it once |
| `LocationCode.AssignAllLastWins` | wear/src/main/java/com/leocatto/olcapp/presentation/OlcAppState.kt:5-12 | after any series of assignments the stored code is the last non-null value of the series, or the earlier code if all were null |
| `LocationCode.AssignAllSticky` | wear/src/main/java/com/leocatto/olcapp/presentation/OlcAppState.kt:6-9 | once a code is stored, no series of assignments makes it null again |
| `LocationCode.AssignAllConsistent` | wear/src/main/java/com/leocatto/olcapp/presentation/OlcAppState.kt:9-17 | every series of assignments keeps the segments equal to the slices of the stored code, or the placeholders while there is none |
| `WearAppState.OlcAppState.constructor` | wear/src/main/java/com/leocatto/olcapp/presentation/OlcAppState.kt:4-17 | a new watch holder has a null code and the placeholder segments |
| `WearAppState.OlcAppState.SetFullLocationCode` | wear/src/main/java/com/leocatto/olcapp/presentation/OlcAppState.kt:5-12 | the watch setter changes the fields as `Assign` does: null changes nothing, a code is stored with its segments, and the invariant is kept |
| `MobileAppState.OlcAppState.constructor` | mobile/src/main/java/com/leocatto/olcapp/OlcAppState.kt:22-38 | a new phone holder has both flags false, a null code and the placeholder segments |
| `MobileAppState.OlcAppState.SetFullLocationCode` | mobile/src/main/java/com/leocatto/olcapp/OlcAppState.kt:25-34 | the phone setter follows `Assign`, keeps the invariant and leaves both flags alone |
| `MobileAppState.OlcAppState.UpdateViews` | mobile/src/main/java/com/leocatto/olcapp/OlcAppState.kt:101-116 | the text views show the three segments and the given message; the approximate label is visible exactly when the location is not precise; the spinner is off; the holder's own fields are unchanged |
| `MobileAppState.OlcAppState.UpdateAll` | mobile/src/main/java/com/leocatto/olcapp/OlcAppState.kt:96-99 | the code becomes the given one, its slices are on screen, the spinner is off and the flags are unchanged |
| `MobileAppState.OlcAppState.OnLocationResult` | mobile/src/main/java/com/leocatto/olcapp/OlcAppState.kt:76-92 | an empty result changes nothing; otherwise the effect is that of `updateAll` on the encoding of the last location |
| `LocationUpdates.StartLocationUpdates` | mobile/src/main/java/com/leocatto/olcapp/MainActivity.kt:184-208 | afterwards updates run if and only if they ran before or a permission is granted; the registration balance is kept |
| `LocationUpdates.StopLocationUpdates` | mobile/src/main/java/com/leocatto/olcapp/MainActivity.kt:210-215 | afterwards updates are not running; the registration balance is kept |
| `LocationUpdates.ShowPermissionSnackbar` | mobile/src/main/java/com/leocatto/olcapp/MainActivity.kt:217-237 | afterwards updates are stopped and a snackbar is showing; the balance is kept |
| `LocationUpdates.DismissSnackbarIfAny` | mobile/src/main/java/com/leocatto/olcapp/MainActivity.kt:170 | afterwards no snackbar is showing, and no location registration is made or removed |
| `LocationUpdates.RefreshLocation` | mobile/src/main/java/com/leocatto/olcapp/MainActivity.kt:155-182 | a refresh keeps the registration balance |
| `LocationUpdates.PermissionsResult` | mobile/src/main/java/com/leocatto/olcapp/MainActivity.kt:109-133 | the permission-result handler keeps the registration balance |
| `LocationUpdates.FixDelivered` | mobile/src/main/java/com/leocatto/olcapp/OlcAppState.kt:115 | a delivered fix stops the spinner and keeps the balance |
| `LocationUpdates.RunKeepsBalanced` | mobile/src/main/java/com/leocatto/olcapp/MainActivity.kt:143-215 | from a balanced session, any sequence of handler calls leaves it balanced |
| `LocationUpdates.RunBalanced` | mobile/src/main/java/com/leocatto/olcapp/MainActivity.kt:143-215 | from creation, after any sequence of handler calls, the activity holds one live registration while `locationUpdatesRunning` is set and none otherwise |
| `LocationUpdates.StartWhenRunning` | mobile/src/main/java/com/leocatto/olcapp/MainActivity.kt:185 | starting while running changes nothing and requests nothing |
| `LocationUpdates.StartWhenStopped` | mobile/src/main/java/com/leocatto/olcapp/MainActivity.kt:186-207 | starting while stopped sets the flag if and only if fine or coarse is granted, requesting updates exactly then |
| `LocationUpdates.StopIdempotent` | mobile/src/main/java/com/leocatto/olcapp/MainActivity.kt:210-215 | stopping while stopped is a no-op; stopping while running removes updates and clears the flag; stopping twice equals stopping once |
| `LocationUpdates.RefreshWithoutPermission` | mobile/src/main/java/com/leocatto/olcapp/MainActivity.kt:156-168 | with neither permission, a refresh ends with the spinner off, updates stopped, the snackbar shown, precision unchanged and no fix asked for |
| `LocationUpdates.RefreshWithPermission` | mobile/src/main/java/com/leocatto/olcapp/MainActivity.kt:170-181 | with some permission, a refresh dismisses any snackbar and asks for one fix. Updates end up running, requested only if they were not running before, and the spinner stays on |
| `LocationUpdates.PermissionsResultPrecision` | mobile/src/main/java/com/leocatto/olcapp/MainActivity.kt:112-131 | fine granted makes the location precise; coarse alone makes it approximate; with neither, updates stop, the snackbar shows and precision is unchanged |
| `MobileMainActivity.MapsUri` | mobile/src/main/java/com/leocatto/olcapp/MainActivity.kt:100 | the maps link is `http://plus.codes/` followed by exactly the code |
| `MobileMainActivity.MapsUriRoundTrip` | mobile/src/main/java/com/leocatto/olcapp/MainActivity.kt:100 | the code read back out of its maps link is the code |
| `MobileMainActivity.MapsUriInjective` | mobile/src/main/java/com/leocatto/olcapp/MainActivity.kt:100 | two codes have the same maps link if and only if they are equal |
| `MobileMainActivity.MainActivity.constructor` | mobile/src/main/java/com/leocatto/olcapp/MainActivity.kt:46-141 | after creation both flags are off, the spinner is off, there is no snackbar, the code is null with placeholder segments, and only the permission request has been launched |
| `MobileMainActivity.MainActivity.StartLocationUpdates` | mobile/src/main/java/com/leocatto/olcapp/MainActivity.kt:184-208 | the activity's flags, snackbar and platform calls change as `LocationUpdates.StartLocationUpdates` says; the code is untouched |
| `MobileMainActivity.MainActivity.StopLocationUpdates` | mobile/src/main/java/com/leocatto/olcapp/MainActivity.kt:210-215 | the state changes as `LocationUpdates.StopLocationUpdates` says; the code is untouched |
| `MobileMainActivity.MainActivity.ShowPermissionSnackbar` | mobile/src/main/java/com/leocatto/olcapp/MainActivity.kt:217-237 | the state changes as `LocationUpdates.ShowPermissionSnackbar` says; the code is untouched |
| `MobileMainActivity.MainActivity.RefreshLocation` | mobile/src/main/java/com/leocatto/olcapp/MainActivity.kt:155-182 | the state changes as `LocationUpdates.RefreshLocation` says; the code and the texts on screen are untouched |
| `MobileMainActivity.MainActivity.OnPermissionsResult` | mobile/src/main/java/com/leocatto/olcapp/MainActivity.kt:109-133 | the state changes as `LocationUpdates.PermissionsResult` says; the code and the texts on screen are untouched |
| `MobileMainActivity.MainActivity.OnPause` | mobile/src/main/java/com/leocatto/olcapp/MainActivity.kt:143-147 | pausing stops location updates as `LocationUpdates.StopLocationUpdates` says |
| `MobileMainActivity.MainActivity.OnResume` | mobile/src/main/java/com/leocatto/olcapp/MainActivity.kt:149-153 | resuming refreshes as `LocationUpdates.RefreshLocation` says |
| `MobileMainActivity.MainActivity.OnCurrentLocation` | mobile/src/main/java/com/leocatto/olcapp/MainActivity.kt:172-179 | a null fix crashes the listener before it writes anything; otherwise the fix is encoded and stored, its slices are shown, the spinner stops and nothing else in the protocol state changes |
| `MobileMainActivity.MainActivity.OnShareClicked` | mobile/src/main/java/com/leocatto/olcapp/MainActivity.kt:79-88 | share does nothing if and only if there is no code; otherwise it shares the full code as `text/plain` |
| `MobileMainActivity.MainActivity.OnCopyClicked` | mobile/src/main/java/com/leocatto/olcapp/MainActivity.kt:89-97 | copy always puts the current code on the clipboard with label `OpenLocationCode`, null included (no guard) |
| `MobileMainActivity.MainActivity.OnMapsClicked` | mobile/src/main/java/com/leocatto/olcapp/MainActivity.kt:98-107 | maps does nothing if and only if there is no code. It opens the maps app exactly when there is a code and the app is installed, with a link whose code reads back as the stored code. Otherwise it shows `App Not Installed` |

## Left out

- WearAppState.OlcAppState.SetFullLocationCode: requires a code of at least 11 characters. In the source a shorter string makes `substring` throw after `field` (and possibly some segments) have already been updated. That partial update is not modelled; every code the encoding library returns is long enough.
- MobileAppState.OlcAppState.SetFullLocationCode: the same 11-character precondition and the same unmodelled partial update on a short string.
- LocationCode.Slice: requires at least 11 characters for the same reason; the `substring` failure on a shorter string is not modelled.
- LocationCode.Assign: requires a code of at least 11 characters (through `Assignable`); the exception and partial update on a shorter one are not modelled.
- MobileAppState.OlcAppState.UpdateAll: requires at least 11 characters, as the setter it calls does; the encoder always supplies such a code.
- MobileMainActivity.MainActivity.OnCurrentLocation: a null fix is reported as `crashed` with nothing written. What happens after the uncaught NullPointerException (the app process dies) is not modelled.
- The Open Location Code algorithm (`OpenLocationCode.encode`) belongs to a third-party library. The model takes it as an arbitrary `Encoder` whose results have at least 11 characters.
- Location acquisition is not modelled: the fused location client, request priorities and intervals, and callback delivery on the main looper. Fixes arrive as inputs to `OnLocationResult` and `OnCurrentLocation`, and their order and timing are not modelled. `RunBalanced` covers every order of the activity's callbacks.
- Android UI plumbing is not modelled: window insets, `findViewById`, intents and the share chooser, the clipboard service, toasts, snackbar rendering and its "Settings" action, `resolveActivity`, and logging. The buttons return the action they ask for, and the snackbar is reduced to whether it exists and is showing. The initial text of the views comes from the layout, which is not part of this model, so the constructor takes it as a parameter.
- `LocalDateTime.now()` and the date format in `updateViews` read the wall clock. The "last updated" message is a parameter instead.
- The wearable `MainActivity` is not part of this model: Compose UI, the permission request and SDK wiring. Its per-location loop only assigns each encoded fix to the setter; `AssignAll` and its lemmas state what such a loop leaves. Its `onPause` removes a freshly created callback, which depends on SDK identity semantics.
- `mobile/build.gradle.kts` is build configuration only.
- The permission answers from `checkSelfPermission` are the `Grants` input, and the permission-request result map is a separate input. The model does not assume that the two agree.
