# Screenshot control: the activation handler

This project models the one piece of logic in the screenshot-control app: the button handler
`toggleScreenshot` of the `App` component. The handler keeps two pieces of component state,
`isActivated` (initially false) and `loading` (initially false, true while a press is in
flight). A press asks the native `ScreenshotControl` module to move to the opposite state.

- If the module answers falsy, the handler shows the alert "Failed to update screenshot status".
- If the module throws, the handler shows "Something went wrong".
- If the module answers truthy, the handler commits the new state at once. It then gathers, in
  this order, the location, the public IP, the device name, the MAC address and, on Android
  only, the IMEI ("N/A" elsewhere). It posts a report naming the new status ("Enabled" or
  "Disabled") and shows "Screenshots are now <status>".
- Any of those later steps can throw. A throw ends the press with "Something went wrong" and
  leaves the committed state in place.
- Every press ends by clearing `loading`.

The foreign calls (native module, geolocation, IP lookup, device information, HTTP post) are
not modelled. Each press is given a `Script`: the outcome every foreign call would have if it
were reached. The native call either returns a boolean or throws. Every other call either
yields a value or fails.

Files:

- `outcomes.dfy` (module `Outcomes`): `Option` and the scripted outcome types.
- `report.dfy` (module `Report`): the platform, the posted report, the status label and the
  three alerts.
- `activation.dfy` (module `Activation`): the specification of one press. `Attempt` is the press
  as a function. `Plan` and `FirstFailure` give an independent characterisation of the calls a
  press makes: the fixed plan, cut just after its first failing call. The lemmas relate the two
  and state the outcome of each case.
- `app.dfy` (module `ScreenshotApp`): class `App` with the component's `loading` and
  `isActivated` fields and the handler as the method `Toggle`. `Toggle` keeps the native gate,
  the catch and the `finally`. The read-only method `GatherAndReport` walks the steps after a
  confirmed toggle. Both are proved equal to the specification.
- `session.dfy` (module `Session`): repeated presses, each starting after the previous settled.
- `scenarios.dfy` (module `Scenarios`): the component's test cases, a location timeout after a
  confirmed toggle and a deactivation from the activated state, written as callers of `App.Toggle` and checked from its contract alone.

A note on the tests: the success test in `App.spec.js:74-82` expects a report with `os: 'ios'`
and a fetched IMEI. Under `App.js:65` that report cannot occur, because off Android the IMEI is
never fetched and is reported as `'N/A'`. `Activation.ReportContents` proves this. The scenarios
therefore check the test's expected report on Android (`ActivateOnAndroid`), and check `"N/A"` on
iOS (`ActivateOnIos`).

## Model

| member | source | states |
|---|---|---|
| `ScreenshotApp.App.constructor` | App.js:20-21 | the component starts with `loading` and `isActivated` both false |
| `ScreenshotApp.App.Toggle` | App.js:51-81 | callable only while not loading (the button is hidden otherwise); afterwards `loading` is false on every path; the flag is flipped exactly when the native toggle returned true and is otherwise unchanged; flag, alert, posted payload and calls equal `Attempt` of the old flag |
| `ScreenshotApp.App.GatherAndReport` | App.js:58-71 | runs while loading; the calls, the payload handed to the post and the post's success equal `GatherAndPost` |
| `Report.StatusLabel` | App.js:58 | the status is "Enabled" exactly when the new state is true and "Disabled" exactly when it is false |
| `Report.SuccessAlert` | App.js:71 | the success alert is titled "Success" and differs from both error alerts |
| `Activation.Plan` | App.js:55-70 | the fixed call order: native toggle with the requested state, location, public IP, device name, MAC address, IMEI exactly on Android, then the post |
| `Activation.FirstFailure` | App.js:55-75 | every call before the returned position succeeds, and the call at that position, if any, fails |
| `Activation.StopsAt` | App.js:55-75 | the first failing position is unique: a plan in which every call before position k succeeds and the call at k, if any, fails is cut just after k, or kept whole when k is its length |
| `Activation.CutAtFailure` | App.js:55-75 | the calls made are a prefix of the plan; every call but the last succeeded; the cut is short only when its last call failed |
| `Activation.GatherAndPost` | App.js:59-71 | location is gathered first; a report is handed over exactly when the post is called, and only after every gathering step (IMEI on Android) succeeded; the press succeeds exactly when the post was made and succeeded |
| `Activation.Attempt` | App.js:51-81 | the native toggle is the first call, with the negation of the flag; the flag moves exactly when the toggle returned true, and no later failure moves it back |
| `Activation.ConfirmedFollowsPlan` | App.js:57-70 | after a confirmed toggle the calls are the plan cut just after its first failing call |
| `Activation.FollowsPlan` | App.js:54-77 | the calls of every press are the plan cut just after its first failing call; the IMEI is asked for only on Android |
| `Activation.NativeCalledOnce` | App.js:54-55 | the native toggle is called exactly once per press, as its first call |
| `Activation.PostedIffPostCalled` | App.js:61-70 | a report is handed over exactly when the post is called, and then every planned call was made |
| `Activation.RejectionChangesNothing` | App.js:55-74 | a false answer leaves the flag unchanged, makes no further call, posts nothing and raises ("Error", "Failed to update screenshot status") |
| `Activation.ThrowChangesNothing` | App.js:53-77 | a throwing native toggle leaves the flag unchanged, makes no further call, posts nothing and raises ("Error", "Something went wrong") |
| `Activation.AlertCases` | App.js:70-77 | each press raises exactly one of three alerts: rejection exactly when the toggle returned false, success naming the new status exactly when the post was made and succeeded, the generic failure otherwise |
| `Activation.ReportOf` | App.js:61-69 | the report's status is "Enabled" exactly when the new state is true; its IMEI is the fetched one on Android and "N/A" elsewhere; its `os` names the platform; location, public IP, device name and MAC address are the gathered values |
| `Activation.ReportContents` | App.js:58-69 | a posted report follows a confirmed toggle and successful gathering; its status is "Enabled" exactly when the new state is true; its IMEI is the fetched one on Android and "N/A" elsewhere; the other fields are the gathered values |
| `Session.Presses` | App.js:86-96 | a run of presses yields one alert, one requested state and one call trace per press |
| `Session.FlagBeforeStep` | App.js:54-57 | after the first press, the flag the later presses start from is the one that press left behind |
| `Session.PressIsAttempt` | App.js:51-81 | press i of a run raises the alert and makes the calls of one handler run from the flag left by the confirmed toggles of the earlier presses |
| `Session.NativeCalledOncePerPress` | App.js:54-55 | every press of a run calls the native toggle exactly once, as its first call |
| `Session.FlagParity` | App.js:54-57 | after any run of presses the flag is flipped exactly when an odd number of native toggles were confirmed |
| `Session.RequestsFollowConfirmations` | App.js:54-57 | each press asks for the opposite of the state left by the confirmed toggles of the earlier presses |
| `Session.RetryAfterLateFailure` | App.js:57-77 | after a confirmed toggle whose reporting failed, the next press asks for the original state |

## Left out

- Rendering and styling (App.js:83-102) are not modelled. The only fact carried over is that the
  button, and so the handler, is reachable only while `loading` is false. That fact is
  `Toggle`'s precondition.
- The permission request at start-up (App.js:23-31) is not modelled. Its result is never used.
- The native module, geolocation, the IP lookup, device information and the HTTP post are
  foreign I/O. They are replaced by the scripted outcomes in `Script`. The 15-second timeout
  and the high-accuracy flag of the location request configure the provider; a timeout is a
  failing location outcome.
- Latitude and longitude are floats in the source. They are `real` values here, passed through
  untouched. No arithmetic is done on them.
- The source checks the native module's answer for truthiness. The model takes it as a
  boolean.
- `console.error` logging (App.js:76) is not modelled.
- Asynchronous scheduling is not modelled. Each press is one sequential method call that
  starts after the previous press settled. A second tap that lands before the re-render hiding
  the button would run a second handler over the same `isActivated`; that interleaving is
  outside the model.
- ScreenshotApp.App.Toggle: the contract speaks of `loading` only before and after the press.
  That `loading` is true while the foreign calls run shows only in the body and in
  `GatherAndReport`'s precondition.
- `Platform.OS` is modelled as iOS or Android only. The source treats every platform other than
  Android as it treats iOS, but the report's `os` field (App.js:62) carries `Platform.OS` itself
  ('web', 'windows', …), and the two-value `Platform` cannot represent those names.
