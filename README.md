# Host/viewer control session and UI state reducers, in Dafny

This project models two small in-memory state machines of the dt2 shared-session app.

- **The control-ownership session** (`MockSession` in `tests/host_viewer_mock.test.js`). It decides which identity is the controller ("host"). It holds at most one pending control-transfer request. It also has a downtime flag. While that flag is set and the controller is a non-empty identity, a claim by anyone else is refused, and only an approval or a reset then moves or clears control. A controller that is the empty string, which an approved request from `''` can install, is treated as absent by claims, so downtime does not protect it.
- **The UI state reducers** (`state-core.js`). `coerceDate` picks a valid instant from candidate values. The focus, dark-mode and messaging setters are idempotent and report `{changed}`. The downtime initialiser resets the pause bookkeeping and defaults the duration to 24 hours.

Files:

- `wrappers.dfy`: `Option` (for `null`) and `Result` (for an operation that throws).
- `host_session.dfy`: each session operation as a pure step function on a `Session` value. It also holds the class `MockSession`, whose five fields each method assigns in place; every method is proved to follow its step function. The three scenario tests are replayed against the class.
- `host_session_traces.dfy`: arbitrary sequences of session calls, with the properties that hold over all of them.
- `state_core.dfy`: `coerceDate` and the helpers it needs, the state record as the class `UiState`, and the four reducers as methods that write only their own fields of that record. The reducer tests are replayed against these methods.

Modelling choices:

- Instants are integers (milliseconds since the epoch).
- The clock (`Date.now()`, `new Date()`) is a parameter: `now` for `requestControl`, `clock` for the reducers.
- Identities and names are `Option<string>`, where `None` is `null`/`undefined`. JavaScript truthiness of a string is written out as `Truthy`: present and non-empty. `name || null` is `OrNull`.
- An operation that throws returns `Err(...)` and leaves the state unchanged. The source throws before assigning any field.
- For the reducers, a JavaScript value is a `Value`: absent, a `Date` (valid or invalid), a finite number, a string, or something else.
  - `new Date(number)` follows the TimeClip operation of ECMA-262: the number must lie within ±8.64e15 ms, and it is truncated towards zero.
  - `new Date(string)` is done by the host's date library. It is given as a function parameter `parse`.

## Model

| member | source | states |
|---|---|---|
| `HostSession.ClaimHostStep` | tests/host_viewer_mock.test.js:12-20 | throws `UidRequired` exactly when uid is missing or empty; returns false exactly when a truthy controller other than uid holds active downtime; on an error or false nothing changes; on success the controller becomes uid with `name or null`, and the request, downtime flag and counter are untouched |
| `HostSession.MockSession.ClaimHost` | tests/host_viewer_mock.test.js:12-20 | the in-place claim produces exactly the state and result of `ClaimHostStep` and keeps downtime tied to a present controller |
| `HostSession.StartDowntimeAsWritten` | tests/host_viewer_mock.test.js:22-27 | the guard as written: succeeds exactly when uid equals the controller value, `null` included, and then only sets the downtime flag |
| `HostSession.NullStartDowntimeOpensUncontrolledDowntime` | tests/host_viewer_mock.test.js:22-27 | as written, `startDowntime(null)` on an unclaimed session succeeds and leaves downtime active with no controller; the corrected guard refuses it |
| `HostSession.StartDowntimeStep` | tests/host_viewer_mock.test.js:22-27 | succeeds exactly when uid is present and equals the controller; on success only the downtime flag changes, otherwise it throws `NotController` and nothing changes |
| `HostSession.MockSession.StartDowntime` | tests/host_viewer_mock.test.js:22-27 | the in-place start produces exactly the state and result of `StartDowntimeStep` and keeps downtime tied to a present controller |
| `HostSession.RequestControlStep` | tests/host_viewer_mock.test.js:29-39 | never throws; returns false with no change exactly when another identity's request is pending; otherwise the slot holds `{uid, name or null, requestedAt = now}` and nothing else changes |
| `HostSession.MockSession.RequestControl` | tests/host_viewer_mock.test.js:29-39 | the in-place request produces exactly the state and result of `RequestControlStep` |
| `HostSession.ApproveRequestStep` | tests/host_viewer_mock.test.js:41-54 | throws `NotHost` exactly when the approver is not the controller; returns false with no change exactly when nothing is pending; otherwise the requester becomes controller with its name or null, the request is cleared, downtime ends and the counter is untouched |
| `HostSession.MockSession.ApproveRequest` | tests/host_viewer_mock.test.js:41-54 | the in-place approval produces exactly the state and result of `ApproveRequestStep` |
| `HostSession.ResetStep` | tests/host_viewer_mock.test.js:56-62 | clears controller, name, request and downtime, and raises the counter by exactly one |
| `HostSession.MockSession.Reset` | tests/host_viewer_mock.test.js:56-62 | the in-place reset produces exactly the state of `ResetStep` |
| `HostSession.MockSession.constructor` | tests/host_viewer_mock.test.js:4-10 | a new session is unclaimed: no controller, nothing pending, no downtime, counter zero |
| `HostSession.PendingCount` | tests/host_viewer_mock.test.js:7 | a session holds at most one pending request, and none exactly when the slot is empty; this follows from the single optional slot alone, so it holds after every sequence of calls without a separate proof |
| `HostSession.ResetIdempotentOnVisibleFields` | tests/host_viewer_mock.test.js:56-62 | resetting twice gives the same visible state as resetting once; the counter strictly increases |
| `HostSession.SelfReclaimSucceeds` | tests/host_viewer_mock.test.js:14-19 | a claim by a truthy incumbent always returns true and changes only the display name, whatever the downtime flag |
| `HostSession.DowntimeBlocksOtherClaims` | tests/host_viewer_mock.test.js:14-16 | after the controller opens downtime, a claim by any other identity returns false and the controller stays |
| `HostSession.FirstRequestBlocksOthers` | tests/host_viewer_mock.test.js:29-39 | while `a` is pending, a request by a different `b` returns false and `a`'s request stays as it was |
| `HostSession.ReRequestRefreshesTimestamp` | tests/host_viewer_mock.test.js:33-37 | a re-request by the pending requester succeeds and stores the new name and timestamp |
| `HostSession.HandoffEndsProtection` | tests/host_viewer_mock.test.js:41-54 | claim, downtime, request, approve: the viewer becomes controller, downtime is cleared, nothing is pending, and a later claim by the old host succeeds |
| `HostSession.InitialHostClaimScenario` | tests/host_viewer_mock.test.js:65-71 | first claim true, a second host's claim during downtime false, controller still host-1 |
| `HostSession.ControlRequestFlowScenario` | tests/host_viewer_mock.test.js:73-83 | the viewer's request registers, the host's approval succeeds, the viewer is controller and nothing is pending |
| `HostSession.ResetClearsScenario` | tests/host_viewer_mock.test.js:85-93 | after claim, request and reset: no controller, nothing pending, counter 1 |
| `HostSessionTraces.DowntimeOnlyOpenedByController` | tests/host_viewer_mock.test.js:22-27 | a call that turns downtime on is a `startDowntime` by the present controller |
| `HostSessionTraces.RunKeepsDowntimeHeld` | tests/host_viewer_mock.test.js:12-62 | over any sequence of calls, downtime is never active while `controllerUid` is `null`; this holds with the corrected `startDowntime` guard only, since the guard as written breaks it (see Findings); a controller `Some("")`, which claims treat as absent, still counts as present here |
| `HostSessionTraces.EmptyControllerIsNotProtected` | tests/host_viewer_mock.test.js:14-19 | after claim by `h`, a request from `''`, its approval and `startDowntime('')`, downtime is active under controller `''`, yet a claim by `x` succeeds and leaves downtime active |
| `HostSessionTraces.RunCountsResets` | tests/host_viewer_mock.test.js:56-62 | over any sequence of calls, the counter grows by exactly the number of resets |
| `HostSessionTraces.DowntimeProtectsController` | tests/host_viewer_mock.test.js:14-16 | while downtime protects a truthy controller, no sequence of claims, downtime starts and requests changes the controller or ends downtime |
| `HostSessionTraces.FirstRequesterWins` | tests/host_viewer_mock.test.js:29-39 | once a request is pending, the pending requester stays the same through any sequence without an approval or a reset |
| `StateCore.CoerceDate` | state-core.js:3-19 | the instant the value itself denotes wins, whether a valid Date, an in-range number or a parsable string; otherwise a valid Date fallback; null exactly when neither yields one |
| `StateCore.TimeClip` | state-core.js:7-10 | a number makes a valid Date exactly when it is within ±8.64e15; the instant is the number truncated towards zero and stays within that range |
| `StateCore.FocusSince` | state-core.js:29-32 | when focus is enabled, `since` is always a Date: a valid `options.since`, else a valid stored `fullscreenSince`, else `now`, which is `options.now` if that is a Date and the clock otherwise |
| `StateCore.EnsureFocusState` | state-core.js:21-41 | throws on a missing record; when enabling with a `null` options object, throws before writing anything; otherwise sets `fullscreenMode`, reports `changed` exactly when the flag flipped, and stores and returns the `FocusSince` instant when enabling and null when disabling; writes only those two fields |
| `StateCore.ReenableFocusKeepsSince` | state-core.js:29-35 | re-enabling focus without `since` reports no change and keeps the recorded instant, provided the first call was not given an invalid Date as `now` |
| `StateCore.EnsureDarkMode` | state-core.js:43-53 | throws on a missing record; otherwise `darkMode` equals the desired value, `changed` is true exactly when it flipped, and no other field is written |
| `StateCore.RepeatDarkMode` | state-core.js:43-53 | repeating the same `ensureDarkMode` call reports no change the second time |
| `StateCore.EnsureMessagingState` | state-core.js:55-65 | throws on a missing record; otherwise `messagesOn` equals the desired value, `changed` is true exactly when it flipped, and no other field is written |
| `StateCore.RepeatMessagingState` | state-core.js:55-65 | repeating the same `ensureMessagingState` call reports no change the second time |
| `StateCore.DowntimeHours` | state-core.js:72-74 | the duration is the given value when it is a positive number, else 24, and always positive |
| `StateCore.DowntimeStart` | state-core.js:71 | downtime starts at the instant `options.now` denotes when valid, else at the clock |
| `StateCore.StartDowntime` | state-core.js:67-87 | throws on a missing record, and on a `null` options object before writing anything; otherwise started is true, paused is false, paused duration is 0, pause start is null, and the start instant and hours are stored and echoed in the result; writes only those six fields |
| `StateCore.UiState.constructor` | tests/state_core.test.js:5 | an empty record `{}`: every flag reads false and every other field is absent |
| `StateCore.FocusStateLifecycleScenario` | tests/state_core.test.js:4-21 | the first enable changes, sets `fullscreenMode` and records the given instant in `fullscreenSince`, a second enable changes nothing and keeps the instant, and disabling clears both fields |
| `StateCore.DarkModeScenario` | tests/state_core.test.js:23-32 | enable changes and sets the flag, a repeat does not change, disable changes |
| `StateCore.MessagingScenario` | tests/state_core.test.js:34-44 | enable changes and sets the flag, a repeat does not change, disable changes and clears the flag |
| `StateCore.StartDowntimeScenario` | tests/state_core.test.js:46-58 | the bookkeeping is reset, and the given start instant and 12-hour duration are stored and echoed |

## Findings

| source | as written | input that shows it | evidently intended | confidence | as-written member | corrected member |
|---|---|---|---|---|---|---|
| tests/host_viewer_mock.test.js:23 | `uid !== this.controllerUid` lets `null` through when there is no controller | `startDowntime(null)` on a new session: downtime becomes active with no controller | only a present controller may start downtime, so downtime never runs without a controller | medium, not executed | `HostSession.StartDowntimeAsWritten` (shown by `HostSession.NullStartDowntimeOpensUncontrolledDowntime`) | `HostSession.StartDowntimeStep` (used by `MockSession.StartDowntime` and the traces; invariant proved by `HostSessionTraces.RunKeepsDowntimeHeld`) |

## Left out

- `sw.js`, the service worker, is not part of this model. It is browser cache and network I/O.
- The UMD export wrapper of `state-core.js`, the test harness's `console.log`, and the assertion library itself are left out.
- The real clock and string date parsing are left out. They are a `now`/`clock` parameter and a `parse` function parameter.
- `null` and `undefined` are both `None`. The source's strict `!==` tells them apart. The model therefore does not capture that `startDowntime()` with no argument on a new session throws (`undefined !== null`) while `startDowntime(null)` passes.
- `approveRequest` keeps the source's raw comparison in `HostSession.ApproveRequestStep`, so `approveRequest(null)` with no controller promotes the pending requester. An unclaimed session can be claimed by anyone anyway, so this is not corrected.
- Truthiness of arbitrary values is left out. The reducers take `active`/`enabled` as a `bool`, and the stored flags are `bool`, so `!!state.darkMode` on a non-boolean stored value is not modelled. A state record that is present but not an object is not modelled either; only a missing one (`null`) throws.
- `StateCore.EnsureFocusState`: the source returns and stores the same `Date` object (the test compares it by identity). The model stores the instant the object holds, so object identity becomes equality of values.
- Numbers are finite reals. `NaN` and the infinities, which make `new Date(n)` invalid, are not representable.
- An options object is `Some(FocusOptions(now, since))` or `Some(DowntimeOptions(now, durationHours))`, and `None` is an explicit `null`, which throws when a field is read. An omitted options argument defaults to `{}`, whose fields are `Absent`, and so does a non-object options value.
- The only downtime timing in the modelled files is the field reset of `startDowntime`. No pause, resume or elapsed-time logic is modelled.
- Concurrency is left out: each operation is one atomic method, as in the sequential source.
