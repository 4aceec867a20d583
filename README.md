# VPN session controller of the anton Android bridge, in Dafny

This project models the native Android side of a Flutter app's VPN toggle. The "VPN" opens a
tunnel with address 10.1.1.1/32 that takes the default route 0.0.0.0/0. The IPv4 traffic of
every app not on the exclusion list therefore enters the tunnel, and the service reads that
traffic and discards it. In effect, every app that is not excluded loses network access. What
the project models is the session controller around that tunnel:

- `VpnForegroundService`: its process-wide companion state and its teardown paths.
- `VpnStatusReceiver`: the liveness reconciler driven by connectivity broadcasts.
- `VpnBridge`: the method-channel dispatcher and its consent hand-off.
- `MainActivity`: the status-stream handler.
- `PackageService`: the installed-app listing and package events.

Every Android call is either a parameter or an abstract effect:

- The OS answers are an `Env` record: consent prepared, installed packages, a VPN transport
  present, establish succeeding, and API level at least 23.
- Notifications are a map from slot id to notice.
- The UI status stream is the sequence of `(sink, status)` deliveries.
- Delayed coroutine checks are a counter of pending checks, run one at a time.

Layout (one module per file):

- `wrappers.dfy`: `Option`.
- `notifications.dfy`: the three notification slots and their effects, plus the visibility probe.
- `session_model.dfy`: the shared state as a datatype `Session`, with one function per service
  operation and the lemmas about them.
- `receiver_model.dfy`: the receiver's scheduling and `checkVpnStatus` as functions, with
  edge-triggering lemmas.
- `activity_model.dfy`: the result-code mapping and the stream attach/replay functions.
- `lifecycle.dfy`: all events as one step function. It proves an invariant that every event
  keeps, and the start/stop outcome over command sequences.
- `foreground_service.dfy`: class `VpnService`, whose fields are updated in place. Each entry
  point is proved to leave `Snapshot()` equal to the matching `SessionModel` function.
  `StopFromExternal` is proved equal to `SessionModel.StopVpn`. The notification methods and
  the three field setters are proved to change exactly the slots or the field they write. The
  exclusion loop `BuildConfig` is here.
- `status_receiver.dfy`: class `VpnStatusReceiver`, whose methods act on the service and are
  proved against `ReceiverModel`.
- `bridge.dfy`: the dispatch table, a pure `Dispatch`/`ConsentResult` specification, and class
  `VpnBridge` proved against it.
- `activity.dfy`: class `MainActivity`, plus a client method `ConsentThenStart` that uses only
  the class contracts.
- `packages.dfy`: the app filter (`KeptRecords`, the loop `GetInstalledApps`), the event
  mapping and class `PackageService`.

The model follows the code as written, including:

- Slot 1 is the *active* notification and slot 2 the *inactive* one.
- Posting the inactive notice cancels slot 1.
- `stopVpn` sends `false` on every call, so it is not side-effect idempotent.
- Each broadcast schedules its own check; nothing coalesces them.
- `isRunning` becomes true even when `establish()` returns null, so "running implies a tunnel"
  does not hold. Only the converse is an invariant (`Lifecycle.Inv`).
- A detected external disconnect sends `false` twice: once from the reconciler and once from
  `stopVpn`.
- `lastVpnStatus` is written only by `checkVpnStatus`; `startVpn` and `stopVpn` do not update
  it. Two proved consequences: `ReceiverModel.StaleStatusHidesDeadRestart` (once `false` is
  recorded, a restarted session the check finds dead, with its tunnel up but no VPN transport,
  is never torn down by the reconciler's check) and `ActivityModel.ReplayIgnoresUncheckedStart`.
- `vpnResult` is overwritten by every `startVpn` call and never cleared.
  `Bridge.LatePromptHitsAnsweredCall` shows a late consent outcome being replied to a later
  call that was already answered. The channel's reply object refuses that second reply with an
  exception, START is sent twice, and the call that opened the prompt is never answered.

## Model

| member | source | states |
|---|---|---|
| Notifications.Cancel | android/app/src/main/kotlin/com/vpnmanager/anton/VpnForegroundService.kt:157 | cancelling a slot removes exactly that slot and keeps every other notice |
| Notifications.PostActive | android/app/src/main/kotlin/com/vpnmanager/anton/VpnForegroundService.kt:154-179 | the active notice cancels slot 2 and shows "VPN Active" (ongoing, silent) in slot 1; other slots keep their notice |
| Notifications.PostInactive | android/app/src/main/kotlin/com/vpnmanager/anton/VpnForegroundService.kt:181-203 | the inactive notice cancels slot 1 and shows the given title/text in slot 2; other slots keep their notice |
| Notifications.PostCustom | android/app/src/main/kotlin/com/vpnmanager/anton/VpnForegroundService.kt:205-229 | the custom notice shows in slot 3 (auto-cancel, silent as asked) and touches no other slot |
| Notifications.PostsKeepExclusive | android/app/src/main/kotlin/com/vpnmanager/anton/VpnForegroundService.kt:157-202 | after either post, slots 1 and 2 are never shown together; the custom post and a cancel keep that |
| Notifications.PostActiveIdempotent | android/app/src/main/kotlin/com/vpnmanager/anton/VpnStatusReceiver.kt:32-34 | re-posting the active notice, as the reconciler does, leaves the slots as one post does |
| Notifications.ProbeBlindBelowM | android/app/src/main/kotlin/com/vpnmanager/anton/VpnStatusReceiver.kt:50-56 | below API 23 the probe reports slot 1 visible whatever is shown; from API 23 on, it is visible iff shown |
| Notifications.IsNotificationVisible | android/app/src/main/kotlin/com/vpnmanager/anton/VpnStatusReceiver.kt:50-56 | from API 23 on, whether the slot is shown; below it, always true |
| SessionModel.SendStatus | android/app/src/main/kotlin/com/vpnmanager/anton/VpnForegroundService.kt:33-35 | with a sink, the status is appended to the stream for that sink; without one, the state is unchanged; nothing else changes |
| SessionModel.DeadWhenAnyFactFails | android/app/src/main/kotlin/com/vpnmanager/anton/VpnForegroundService.kt:143-152 | the session is dead iff at least one holds: not running, no tunnel, an invalid descriptor, consent revoked, or no VPN transport |
| SessionModel.IsAlive | android/app/src/main/kotlin/com/vpnmanager/anton/VpnForegroundService.kt:143-152 | liveness is running and a valid tunnel and consent still prepared and a network with VPN transport |
| SessionModel.Resolvable | android/app/src/main/kotlin/com/vpnmanager/anton/VpnForegroundService.kt:88-95 | the exclusion list holds exactly the disallowed packages that resolve and is no longer than the input |
| SessionModel.ResolvableAppend | android/app/src/main/kotlin/com/vpnmanager/anton/VpnForegroundService.kt:88-95 | the exclusion list of a concatenation is the concatenation of the lists: input order is kept, packages are independent |
| SessionModel.SkipsUnresolvable | android/app/src/main/kotlin/com/vpnmanager/anton/VpnForegroundService.kt:89-94 | a package that fails resolution is skipped and the loop continues with the rest |
| SessionModel.ResolvableAll | android/app/src/main/kotlin/com/vpnmanager/anton/VpnForegroundService.kt:88-95 | when every package resolves, the list is passed to the builder unchanged |
| SessionModel.StartVpn | android/app/src/main/kotlin/com/vpnmanager/anton/VpnForegroundService.kt:81-120 | when already running it changes nothing. From stopped: running, `true` to the sink, the slots become PostActive of the old slots, a tunnel exactly when establish succeeds, configured as 10.1.1.1/32 with route 0.0.0.0/0 and the resolvable disallowed packages, reading exactly then; status, sink, instance, package list and pending checks kept |
| SessionModel.StopVpn | android/app/src/main/kotlin/com/vpnmanager/anton/VpnForegroundService.kt:122-131 | from any prior state: no tunnel, not running, no read job, `false` to the sink, slot 1 gone, slot 2 "VPN disconnected", slot 3 untouched |
| SessionModel.StopVpnRepeats | android/app/src/main/kotlin/com/vpnmanager/anton/VpnForegroundService.kt:122-131 | a second stopVpn leaves the same session but sends `false` again |
| SessionModel.StoppedIsDead | android/app/src/main/kotlin/com/vpnmanager/anton/VpnForegroundService.kt:143-152 | after stopVpn the session is dead under every environment |
| SessionModel.OnRevoke | android/app/src/main/kotlin/com/vpnmanager/anton/VpnForegroundService.kt:71-79 | revocation is exactly stopVpn followed by one more `false`. The deferred notice and stopForeground find the slots as stopVpn left them, so the session is torn down, `false` is sent twice and only slot 2 of slots 1 and 2 is shown |
| SessionModel.OnStartCommand | android/app/src/main/kotlin/com/vpnmanager/anton/VpnForegroundService.kt:56-67 | "START" on a stopped session is exactly startVpn. "START" on a running session only re-shows slot 1 (PostActive). "STOP" is stopVpn. Any other action changes nothing |
| SessionModel.OnCreate | android/app/src/main/kotlin/com/vpnmanager/anton/VpnForegroundService.kt:38-47 | an instance is present, with no tunnel and no read job |
| SessionModel.OnDestroy | android/app/src/main/kotlin/com/vpnmanager/anton/VpnForegroundService.kt:49-54 | stopVpn's teardown: not running, no tunnel, no read job, one `false` sent, and the slots stopVpn leaves. Then no instance. Status, sink, package list and pending checks are kept |
| SessionModel.ScheduleCheck | android/app/src/main/kotlin/com/vpnmanager/anton/VpnStatusReceiver.kt:21-24 | one more delayed check is pending; nothing else changes |
| SessionModel.TunnelRead | android/app/src/main/kotlin/com/vpnmanager/anton/VpnForegroundService.kt:102-119 | a positive read changes nothing. A read of zero or less, or an exception, schedules exactly one check and ends the loop. An ended loop ignores reads |
| SessionModel.InvalidateTunnel | android/app/src/main/kotlin/com/vpnmanager/anton/VpnForegroundService.kt:145 | an invalidated descriptor makes the tunnel test fail; the tunnel stays present or absent with its configuration, and nothing else changes |
| SessionModel.Dismiss | android/app/src/main/kotlin/com/vpnmanager/anton/VpnStatusReceiver.kt:49-53 | a swiped-away notice is no longer visible; no slot appears, every other slot and the rest of the session are unchanged |
| SessionModel.CustomNotification | android/app/src/main/kotlin/com/vpnmanager/anton/VpnForegroundService.kt:205-229 | only slot 3 changes, to the requested notice: the shown slots are the old ones plus slot 3, and nothing else in the session changes |
| SessionModel.SetDisallowedPackages | android/app/src/main/kotlin/com/vpnmanager/anton/VpnBridge.kt:22 | the companion list is overwritten and nothing else changes |
| ReceiverModel.OnReceive | android/app/src/main/kotlin/com/vpnmanager/anton/VpnStatusReceiver.kt:15-26 | CONNECTIVITY_ACTION and AIRPLANE_MODE each schedule one check; a null or other intent changes nothing |
| ReceiverModel.IsWatched | android/app/src/main/kotlin/com/vpnmanager/anton/VpnStatusReceiver.kt:16-17 | exactly CONNECTIVITY_ACTION and AIRPLANE_MODE are watched; a missing intent or action is not |
| ReceiverModel.ReadEndIsConnectivitySignal | android/app/src/main/kotlin/com/vpnmanager/anton/VpnForegroundService.kt:137-141 | ending the read loop has the effect of a CONNECTIVITY_ACTION delivered to the receiver |
| ReceiverModel.OnVpnStoppedExternally | android/app/src/main/kotlin/com/vpnmanager/anton/VpnStatusReceiver.kt:59-65 | the inactive notice, then teardown, is exactly stopVpn, since stopVpn posts the same notice again: not running, no tunnel, one `false` sent, only slot 2 of slots 1 and 2, and every other field as stopVpn keeps it |
| ReceiverModel.CheckVpnStatus | android/app/src/main/kotlin/com/vpnmanager/anton/VpnStatusReceiver.kt:27-46 | no instance: no change. lastVpnStatus becomes the liveness. Alive and probe sees no slot 1: slot 1 re-shown, else notices untouched. Liveness equal to lastVpnStatus: only the re-post may happen, and a dead session already recorded `false` is left exactly as it is. A change to true sends `true` and changes nothing else. A change to false is stopVpn after recording and sending `false`, so `false` is sent twice |
| ReceiverModel.RunPendingCheck | android/app/src/main/kotlin/com/vpnmanager/anton/VpnStatusReceiver.kt:21-24 | one scheduled check is consumed and the check runs: apart from the counter, the result is checkVpnStatus of the state before, so the liveness is recorded |
| ReceiverModel.FirstCheckEmits | android/app/src/main/kotlin/com/vpnmanager/anton/VpnStatusReceiver.kt:36-39 | with lastVpnStatus null, the first check always sends the liveness it found |
| ReceiverModel.CheckIdempotent | android/app/src/main/kotlin/com/vpnmanager/anton/VpnStatusReceiver.kt:27-46 | a second check under the same environment changes nothing |
| ReceiverModel.RepeatedChecksActOnce | android/app/src/main/kotlin/com/vpnmanager/anton/VpnStatusReceiver.kt:36-45 | any number of checks against one environment act exactly as the first, so at most two statuses are sent in all |
| ReceiverModel.SignalsNotCoalesced | android/app/src/main/kotlin/com/vpnmanager/anton/VpnStatusReceiver.kt:16-24 | k broadcasts schedule k checks and change nothing else |
| ReceiverModel.StaleStatusHidesDeadRestart | android/app/src/main/kotlin/com/vpnmanager/anton/VpnStatusReceiver.kt:36-38 | after a recorded `false`, a restart whose tunnel is up but which the check finds dead (no VPN transport) keeps running with its tunnel, slot 1 and `true` last sent. Neither a check nor the check its ending read loop schedules changes that |
| ActivityModel.IsGranted | android/app/src/main/kotlin/com/vpnmanager/anton/MainActivity.kt:22 | consent is granted exactly on RESULT_OK; RESULT_CANCELED is a denial |
| ActivityModel.OnListen | android/app/src/main/kotlin/com/vpnmanager/anton/MainActivity.kt:40-43 | the new sink replaces the old one; a non-null lastVpnStatus is delivered to it at once, a null one delivers nothing |
| ActivityModel.OnCancel | android/app/src/main/kotlin/com/vpnmanager/anton/MainActivity.kt:45-47 | the sink is dropped and nothing else changes |
| ActivityModel.CancelledStreamSwallows | android/app/src/main/kotlin/com/vpnmanager/anton/MainActivity.kt:45-47 | after onCancel, sendStatus changes nothing |
| ActivityModel.SecondListenReplaces | android/app/src/main/kotlin/com/vpnmanager/anton/MainActivity.kt:41 | after a second onListen, statuses go to the second sink only |
| ActivityModel.ReplayIgnoresUncheckedStart | android/app/src/main/kotlin/com/vpnmanager/anton/MainActivity.kt:42 | a listener attached after a start that no check has seen gets nothing replayed |
| Lifecycle.InitialInv | android/app/src/main/kotlin/com/vpnmanager/anton/VpnForegroundService.kt:21-31 | the initial state satisfies the invariant |
| Lifecycle.StepKeepsInv | android/app/src/main/kotlin/com/vpnmanager/anton/VpnForegroundService.kt:38-229 | every event keeps the invariant: a stopped session holds no tunnel, only a running one with a tunnel reads, slots 1 and 2 are never both shown |
| Lifecycle.RunKeepsInv | android/app/src/main/kotlin/com/vpnmanager/anton/VpnStatusReceiver.kt:15-65 | the invariant holds after any sequence of events, each observing its own environment (consent, transport and installed packages may change between events) |
| Lifecycle.CommandsDecideRunning | android/app/src/main/kotlin/com/vpnmanager/anton/VpnForegroundService.kt:56-67 | after any sequence of start commands, isRunning is whether the last START/STOP was START; with neither it is unchanged |
| Lifecycle.UnresolvablePackageStillStarts | android/app/src/main/kotlin/com/vpnmanager/anton/VpnForegroundService.kt:88-98 | a start with an unresolvable package still runs, without that package and with the others in order |
| Lifecycle.ZeroReadTearsDown | android/app/src/main/kotlin/com/vpnmanager/anton/VpnForegroundService.kt:107-118 | a zero-byte read, then the scheduled check finding it dead: stopped, `false` sent twice, only slot 2 left of 1 and 2 |
| ForegroundService.BuildConfig | android/app/src/main/kotlin/com/vpnmanager/anton/VpnForegroundService.kt:84-95 | the builder gets 10.1.1.1/32, route 0.0.0.0/0 and exactly the resolvable disallowed packages, in order |
| ForegroundService.VpnService.constructor | android/app/src/main/kotlin/com/vpnmanager/anton/VpnForegroundService.kt:26-31 | the companion starts not running, with null status, sink and instance, and an empty list |
| ForegroundService.VpnService.IsThisVpnStillAlive | android/app/src/main/kotlin/com/vpnmanager/anton/VpnForegroundService.kt:143-152 | isThisVpnStillAlive on the current fields is IsAlive of the snapshot |
| ForegroundService.VpnService.SendStatus | android/app/src/main/kotlin/com/vpnmanager/anton/VpnForegroundService.kt:33-35 | in-place sendStatus leaves the state SessionModel.SendStatus gives |
| ForegroundService.VpnService.OnCreate | android/app/src/main/kotlin/com/vpnmanager/anton/VpnForegroundService.kt:38-47 | in-place onCreate leaves the state SessionModel.OnCreate gives |
| ForegroundService.VpnService.OnDestroy | android/app/src/main/kotlin/com/vpnmanager/anton/VpnForegroundService.kt:49-54 | in-place onDestroy leaves the state SessionModel.OnDestroy gives |
| ForegroundService.VpnService.OnStartCommand | android/app/src/main/kotlin/com/vpnmanager/anton/VpnForegroundService.kt:56-67 | in-place onStartCommand leaves the state SessionModel.OnStartCommand gives |
| ForegroundService.VpnService.OnRevoke | android/app/src/main/kotlin/com/vpnmanager/anton/VpnForegroundService.kt:71-79 | in-place onRevoke leaves the state SessionModel.OnRevoke gives |
| ForegroundService.VpnService.StartVpn | android/app/src/main/kotlin/com/vpnmanager/anton/VpnForegroundService.kt:81-120 | in-place startVpn leaves the state SessionModel.StartVpn gives |
| ForegroundService.VpnService.StopVpn | android/app/src/main/kotlin/com/vpnmanager/anton/VpnForegroundService.kt:122-131 | in-place stopVpn leaves the state SessionModel.StopVpn gives |
| ForegroundService.VpnService.StopFromExternal | android/app/src/main/kotlin/com/vpnmanager/anton/VpnForegroundService.kt:132-135 | stopFromExternal has the effect of stopVpn on the modelled state |
| ForegroundService.VpnService.OnTunnelRead | android/app/src/main/kotlin/com/vpnmanager/anton/VpnForegroundService.kt:107-118 | one read-loop iteration leaves the state SessionModel.TunnelRead gives |
| ForegroundService.VpnService.ScheduleCheck | android/app/src/main/kotlin/com/vpnmanager/anton/VpnStatusReceiver.kt:21-24 | one more pending check, nothing else |
| ForegroundService.VpnService.TakePendingCheck | android/app/src/main/kotlin/com/vpnmanager/anton/VpnStatusReceiver.kt:21-23 | a launched check leaves the pending set when its delay ends; nothing else changes |
| ForegroundService.VpnService.SetLastVpnStatus | android/app/src/main/kotlin/com/vpnmanager/anton/VpnStatusReceiver.kt:38 | the recorded status becomes the given liveness; nothing else changes |
| ForegroundService.VpnService.SetEventSink | android/app/src/main/kotlin/com/vpnmanager/anton/MainActivity.kt:41-46 | the companion sink becomes the given listener, or none; nothing else changes |
| ForegroundService.VpnService.SetDisallowedPackages | android/app/src/main/kotlin/com/vpnmanager/anton/VpnForegroundService.kt:31 | the companion list is overwritten |
| ForegroundService.VpnService.VpnActiveNotification | android/app/src/main/kotlin/com/vpnmanager/anton/VpnForegroundService.kt:154-179 | the slots become PostActive of the old slots; nothing else changes |
| ForegroundService.VpnService.VpnNotActiveNotification | android/app/src/main/kotlin/com/vpnmanager/anton/VpnForegroundService.kt:181-203 | the slots become PostInactive of the old slots; nothing else changes |
| ForegroundService.VpnService.CustomNotification | android/app/src/main/kotlin/com/vpnmanager/anton/VpnForegroundService.kt:205-229 | only slot 3 changes |
| ForegroundService.VpnService.InvalidateTunnel | android/app/src/main/kotlin/com/vpnmanager/anton/VpnForegroundService.kt:145 | the descriptor becomes invalid |
| ForegroundService.VpnService.DismissNotification | android/app/src/main/kotlin/com/vpnmanager/anton/VpnStatusReceiver.kt:49-53 | the swiped slot is no longer shown |
| StatusReceiver.VpnStatusReceiver.OnReceive | android/app/src/main/kotlin/com/vpnmanager/anton/VpnStatusReceiver.kt:15-26 | in-place onReceive leaves the state ReceiverModel.OnReceive gives |
| StatusReceiver.VpnStatusReceiver.RunPendingCheck | android/app/src/main/kotlin/com/vpnmanager/anton/VpnStatusReceiver.kt:21-24 | the delayed coroutine consumes one pending check and runs it |
| StatusReceiver.VpnStatusReceiver.CheckVpnStatus | android/app/src/main/kotlin/com/vpnmanager/anton/VpnStatusReceiver.kt:27-46 | in-place checkVpnStatus leaves the state ReceiverModel.CheckVpnStatus gives |
| StatusReceiver.VpnStatusReceiver.OnVpnStoppedExternally | android/app/src/main/kotlin/com/vpnmanager/anton/VpnStatusReceiver.kt:59-65 | in-place external stop leaves the state ReceiverModel.OnVpnStoppedExternally gives |
| Bridge.ParseOp | android/app/src/main/kotlin/com/vpnmanager/anton/VpnBridge.kt:18-57 | exactly the five method names select an operation, each the one of that name; every other name is unknown |
| Bridge.ParseOpName | android/app/src/main/kotlin/com/vpnmanager/anton/VpnBridge.kt:18-57 | every operation is reached by its own name |
| Bridge.Dispatch | android/app/src/main/kotlin/com/vpnmanager/anton/VpnBridge.kt:17-59 | startVpn stores the pending result, overwrites disallowedPackages, refuses no reply, and either sends START and answers true (consent prepared) or launches the prompt and leaves the answer pending. stopVpn sends STOP and answers true. getStatus answers false without an instance, else liveness. customNotification defaults to "Notice"/"Message"/false, answers true, changes slot 3 only with an instance. setDisallowedPackages overwrites and answers true. Unknown names answer notImplemented and change nothing |
| Bridge.DispatchAnswersOnce | android/app/src/main/kotlin/com/vpnmanager/anton/VpnBridge.kt:17-59 | every call except a startVpn awaiting consent is answered exactly once, immediately; only startVpn and stopVpn send commands |
| Bridge.ConsentResult | android/app/src/main/kotlin/com/vpnmanager/anton/VpnBridge.kt:61-68 | a grant sends START. The stored call is then answered with the outcome, or, if it was answered already, the reply is refused and nothing is answered. No stored call: nothing is answered. The stored call stays |
| Bridge.ConsentAnswersPendingStart | android/app/src/main/kotlin/com/vpnmanager/anton/VpnBridge.kt:20-26 | a startVpn needing consent, whose fresh result has not been answered, is answered by the prompt outcome, with START sent exactly on a grant and no refused reply |
| Bridge.LatePromptHitsAnsweredCall | android/app/src/main/kotlin/com/vpnmanager/anton/VpnBridge.kt:20-68 | with vpnResult overwritten and never cleared, a prompt's outcome is replied to a later call that was already answered. The reply is refused, START is sent twice and the call that launched the prompt is never answered |
| Bridge.VpnBridge.constructor | android/app/src/main/kotlin/com/vpnmanager/anton/VpnBridge.kt:11-15 | a new bridge has no pending result, has answered and sent nothing and has refused no reply |
| Bridge.VpnBridge.HandleMethodCall | android/app/src/main/kotlin/com/vpnmanager/anton/VpnBridge.kt:17-59 | in-place handleMethodCall leaves bridge and service in the states Dispatch gives |
| Bridge.VpnBridge.OnVpnActivityResult | android/app/src/main/kotlin/com/vpnmanager/anton/VpnBridge.kt:61-68 | in-place onVpnActivityResult leaves the state ConsentResult gives, refusing a reply to a call already answered |
| Bridge.VpnBridge.StartVpnService | android/app/src/main/kotlin/com/vpnmanager/anton/VpnBridge.kt:70-80 | the command is appended to the sent intents, nothing else changes |
| Activity.MainActivity.constructor | android/app/src/main/kotlin/com/vpnmanager/anton/MainActivity.kt:26-29 | the activity's bridge is new, bound to the shared service, and idle |
| Activity.MainActivity.OnVpnPermissionResult | android/app/src/main/kotlin/com/vpnmanager/anton/MainActivity.kt:20-24 | the prompt result reaches onVpnActivityResult as `resultCode == RESULT_OK` |
| Activity.MainActivity.OnVpnMethodCall | android/app/src/main/kotlin/com/vpnmanager/anton/MainActivity.kt:32-35 | every VPN call reaches handleMethodCall unchanged |
| Activity.MainActivity.OnListen | android/app/src/main/kotlin/com/vpnmanager/anton/MainActivity.kt:40-43 | in-place onListen leaves the state ActivityModel.OnListen gives |
| Activity.MainActivity.OnCancel | android/app/src/main/kotlin/com/vpnmanager/anton/MainActivity.kt:45-47 | in-place onCancel leaves the state ActivityModel.OnCancel gives |
| Activity.ResultCodeDecidesStart | android/app/src/main/kotlin/com/vpnmanager/anton/MainActivity.kt:20-24 | RESULT_OK sends START and replies true to the pending call; RESULT_CANCELED sends nothing and replies false |
| Packages.ToRecord | android/app/src/main/kotlin/com/vpnmanager/anton/PackageService.kt:75-91 | a record carries the app's own package name, label and icon bytes (none exactly when the icon lookup fails), and isSystem iff FLAG_SYSTEM is set |
| Packages.HasInternet | android/app/src/main/kotlin/com/vpnmanager/anton/PackageService.kt:66-71 | INTERNET is among the requested permissions; a lookup that throws or a null list counts as not requesting it |
| Packages.Keep | android/app/src/main/kotlin/com/vpnmanager/anton/PackageService.kt:64-73 | an app is listed exactly when it has a launch intent and requests INTERNET |
| Packages.IsSystem | android/app/src/main/kotlin/com/vpnmanager/anton/PackageService.kt:88 | the FLAG_SYSTEM bit of the flags is set |
| Packages.KeptRecords | android/app/src/main/kotlin/com/vpnmanager/anton/PackageService.kt:63-92 | every launchable app requesting INTERNET has its record in the output, every output record comes from such an app, and the output is no longer than the input. A permission lookup that throws or returns null counts as not requesting INTERNET |
| Packages.KeptRecordsAppend | android/app/src/main/kotlin/com/vpnmanager/anton/PackageService.kt:63-92 | the listing of a concatenation is the concatenation of the listings: input order is kept |
| Packages.KeptRecordsSingle | android/app/src/main/kotlin/com/vpnmanager/anton/PackageService.kt:73-91 | one app gives exactly one record if kept, none otherwise |
| Packages.GetInstalledApps | android/app/src/main/kotlin/com/vpnmanager/anton/PackageService.kt:58-95 | the loop returns exactly KeptRecords of the package manager's list |
| Packages.EventFor | android/app/src/main/kotlin/com/vpnmanager/anton/PackageService.kt:21-32 | no package name: no event. REMOVED: `removed` with the name. ADDED or REPLACED: `updated` with the listing. Any other action: no event |
| Packages.PackageService.constructor | android/app/src/main/kotlin/com/vpnmanager/anton/PackageService.kt:15-18 | no sink, nothing delivered, receiver not registered |
| Packages.PackageService.OnReceive | android/app/src/main/kotlin/com/vpnmanager/anton/PackageService.kt:20-33 | the mapped event goes to the attached sink; with no event or no sink nothing is delivered |
| Packages.PackageService.OnMethodCall | android/app/src/main/kotlin/com/vpnmanager/anton/PackageService.kt:35-40 | "getInstalledApps" answers the listing; any other method is not implemented |
| Packages.PackageService.OnListen | android/app/src/main/kotlin/com/vpnmanager/anton/PackageService.kt:42-51 | the sink is attached and the receiver registered |
| Packages.PackageService.OnCancel | android/app/src/main/kotlin/com/vpnmanager/anton/PackageService.kt:53-56 | the receiver is unregistered and the sink cleared |

## Left out

- The real TUN interface is not modelled: the Builder calls, `establish`, and the
  `FileInputStream`/`ByteBuffer` reads. The tunnel is a value with a `valid` flag and a
  configuration. Read outcomes are inputs.
- Coroutine scheduling, `delay(1500)` and `delay(500)`, and races between the read job, the
  delayed checks and main-thread work are not modelled. A delayed check is a pending counter,
  and checks run one at a time when the environment fires them.
- `readJob.cancel()` is modelled as immediate. A blocking read that returns after cancellation
  is not modelled.
- In `onRevoke`, the block posted to the main thread (the inactive notice and
  `stopForeground`) is folded into the same step.
- `startVpn` when `establish()` returns null: the read coroutine dereferences the null tunnel
  outside its `try`. The model treats that job as never reading. The uncaught exception that
  follows in the real process is not modelled.
- `stopForeground`/`stopSelf` process lifecycle, `START_STICKY`, receiver
  (un)registration, and the OS delivering START/STOP intents to `onStartCommand` are not
  modelled. The bridge records the commands it sends. `stopForeground(true)` is kept only as
  the removal of slot 1.
- Notification channel creation, importance, sound, vibration and lock-screen flags are not
  modelled, nor any `Build.VERSION` test other than the API-23 visibility probe.
- The Flutter channel names and the `MethodCall`/`EventSink` encodings are not modelled. A call
  is a name plus optional typed arguments. An argument of the wrong runtime type (a
  `ClassCastException` in the source) cannot be expressed.
- `getIconBytes` (bitmap drawing and PNG compression) and `getApplicationLabel` are not
  modelled. An app's icon bytes and label are given as data, so the icon is None exactly when
  the lookup throws.
- The package manager and connectivity manager queries are not modelled; their answers are the
  `Env` fields and the `AppInfo` list.
- A refused reply is modelled only as the `replyRefused` flag. The `IllegalStateException` it
  raises inside the activity-result callback, and what becomes of the process after it, are
  not modelled.
- Every incoming call is given a result id that has not been answered before. Method-channel
  `Result` objects are made per call, so only `onVpnActivityResult` can reply twice.
- Packages.PackageService.OnCancel: does not model the `IllegalArgumentException` that
  `unregisterReceiver` throws when `onCancel` comes without a preceding `onListen`, because
  the event channel always pairs the two.
