# netWatch connectivity state machine in Dafny

This project models the connectivity watcher of the netWatch Android library, the class
`NetworkChangeReceiver`. The class keeps its state in static fields:

- the last committed status `LAST_STATE` (-1 before anything was committed, then 0 or 3);
- the backoff counter `unchanged_counter`;
- the probe repeat budget `repeat`;
- the single probe tick posted on the handler queue;
- the host configuration: navigator, notification flag and notification builder.

Two sources drive the state:

- The OS connectivity broadcast (`onReceive`). It restarts the probe cycle when the OS reports a status other than the committed one.
- The echo probe's three outcomes (`timeout`, `replied`, `ended`). They either reconcile a status (`detectAndAct`) or count one more unchanged cycle and reschedule with a quadratic backoff (`getDelay`).

The model is functional. `Receiver.State` is an immutable record of those fields. Each entry point
is a function returning `Receiver.Step`, which holds the new state and the ordered log of
effects the step performs: `HideAlert`, `ShowAlert`, `BuildTemplate`, `OnConnected(type)`,
`OnDisconnected` and `Schedule(delay)`. OS readings arrive as inputs of type
`Option<NetKind>`, the active network if there is one. Java's 32-bit `int` arithmetic on the
counter and the budget is explicit (`JavaInt`). `Trace.Run` applies a sequence of events in
order, as the one handler queue does.

Modules:

- `JavaInt`: 32-bit wrap-around.
- `Backoff`: the probe delay, both as the source computes it and as intended.
- `Connectivity`: status codes and the OS-reading mappings.
- `Receiver`: the state, the step functions and their one- and two-step properties.
- `Trace`: runs of events and the properties of whole runs.

## Model

| member | source | states |
|---|---|---|
| JavaInt.Inc | netwatch/src/main/java/ir/drax/netwatch/NetworkChangeReceiver.java:230 | `unchanged_counter++` adds one, wrapping from the largest int to the smallest |
| JavaInt.Dec | netwatch/src/main/java/ir/drax/netwatch/NetworkChangeReceiver.java:231 | `repeat - 1` subtracts one, wrapping from the smallest int to the largest |
| JavaInt.Mul | netwatch/src/main/java/ir/drax/netwatch/NetworkChangeReceiver.java:240 | `int * int` is the exact product when it fits in an int, and otherwise the int congruent to the product modulo 2³² |
| Backoff.Delay | netwatch/src/main/java/ir/drax/netwatch/NetworkChangeReceiver.java:237-246 | the delay is between 0 and 60000 ms; it is the smaller of counter²×20 and 60000 and equals one of them |
| Backoff.DelayMonotone | netwatch/src/main/java/ir/drax/netwatch/NetworkChangeReceiver.java:237-246 | a counter of larger magnitude never gets a shorter delay |
| Backoff.DelaySamples | netwatch/src/main/java/ir/drax/netwatch/NetworkChangeReceiver.java:240-242 | counters 0, 1, 2, 3, 10 and 54 give delays of 0, 20, 80, 180, 2000 and 58320 ms |
| Backoff.DelayCapped | netwatch/src/main/java/ir/drax/netwatch/NetworkChangeReceiver.java:241-242 | from a counter of 55 on, the delay is exactly the 60000 ms cap |
| Backoff.DelayBelowCap | netwatch/src/main/java/ir/drax/netwatch/NetworkChangeReceiver.java:240 | up to a counter of 54, the delay is exactly counter²×20 |
| Backoff.DelayAsWritten | netwatch/src/main/java/ir/drax/netwatch/NetworkChangeReceiver.java:237-246 | the delay as Java computes it, with the int product wrapping; it never exceeds 60000 |
| Backoff.AsWrittenAgreesWhileNoOverflow | netwatch/src/main/java/ir/drax/netwatch/NetworkChangeReceiver.java:240 | for counters up to 10362 in magnitude, the Java computation equals the intended delay |
| Backoff.AsWrittenOverflowsAt10363 | netwatch/src/main/java/ir/drax/netwatch/NetworkChangeReceiver.java:240-242 | at counter 10363 the Java computation gives -2147131916, a negative delay |
| Connectivity.Code | netwatch/src/main/java/ir/drax/netwatch/NetworkChangeReceiver.java:42-44 | the stored code is -1 when nothing is committed, 0 for disconnected and 3 for connected |
| Connectivity.CodeInjective | netwatch/src/main/java/ir/drax/netwatch/NetworkChangeReceiver.java:42-44 | two codes are equal exactly when their statuses are equal, so the code comparison is a status comparison |
| Connectivity.ConnectivityStatus | netwatch/src/main/java/ir/drax/netwatch/NetworkChangeReceiver.java:128-140 | the status is connected exactly when an active network exists |
| Connectivity.ConnectionType | netwatch/src/main/java/ir/drax/netwatch/NetworkChangeReceiver.java:147-165 | the type is 1 exactly for wifi and 2 exactly for mobile, otherwise 0; a non-zero type implies a connected status |
| Receiver.DetectAndAct | netwatch/src/main/java/ir/drax/netwatch/NetworkChangeReceiver.java:69-107 | a no-op exactly when the proposal equals the committed status, and then nothing changes, not even the counter; a real change resets the counter; a disconnect without a navigator is not committed; callbacks fire only when a navigator is set and are of the proposal's kind; onConnected carries the OS connection type; the alert is shown exactly for a disconnect with a navigator and notifications enabled; the alert is hidden exactly for a connect or for a disconnect without a navigator; each effect occurs at most once; a hide or onDisconnected comes first; a connect logs exactly hide then onConnected; the alert comes last, right after the template when the template is built; the template is built exactly when the alert is shown and none exists yet; it never posts or drops a tick, and the budget and the configuration are untouched; the state stays well formed |
| Receiver.CheckState | netwatch/src/main/java/ir/drax/netwatch/NetworkChangeReceiver.java:205-235 | the stored budget is the argument, or 1 when the argument is 0, and never 0; exactly one tick is pending afterwards and one Schedule effect is emitted; the delay is the backoff for the current counter, min(counter²×20, 60000); for counters up to 10362 in magnitude that delay equals the source's getDelay(); nothing else changes; the state stays well formed (a non-zero budget, any pending delay within [0, 60000]) |
| Receiver.CheckStateDefault | netwatch/src/main/java/ir/drax/netwatch/NetworkChangeReceiver.java:194-196 | restarts the cycle with the stored budget unchanged; exactly one tick is pending and scheduled, with the backoff for the current counter as its delay; for counters up to 10362 in magnitude that delay equals the source's getDelay(); nothing else changes |
| Receiver.Tick | netwatch/src/main/java/ir/drax/netwatch/NetworkChangeReceiver.java:212-213 | when the handler runs the posted tick, no tick is pending any more and nothing else changes |
| Receiver.Timeout | netwatch/src/main/java/ir/drax/netwatch/NetworkChangeReceiver.java:215-219 | with a budget other than 1 the timeout changes nothing; with budget 1 it reconciles to disconnected; it never posts a tick |
| Receiver.Replied | netwatch/src/main/java/ir/drax/netwatch/NetworkChangeReceiver.java:222-226 | a reply commits connected and leaves the budget at 1; it fires effects exactly when the committed status was not connected, and those are the reconciler's effects; it never shows the alert and never reports a disconnect; it posts no tick, so the probe cycle ends, and nothing else in the state changes: the pending tick, the template and the configuration stay as they were |
| Receiver.Ended | netwatch/src/main/java/ir/drax/netwatch/NetworkChangeReceiver.java:229-233 | the counter goes up by exactly one, wrapping at the int bound; the budget drops by one, except that 1 stays 1 because 0 becomes 1; one tick is rescheduled with the new counter's backoff delay, which equals the source's getDelay() while the new counter is at most 10362 in magnitude; the committed status, the template and the configuration are untouched; the state stays well formed |
| Receiver.OnReceive | netwatch/src/main/java/ir/drax/netwatch/NetworkChangeReceiver.java:62-67 | a broadcast that reports the committed status is a no-op; any other broadcast resets the counter and sets the budget to 4; it posts one tick with delay 0 and commits nothing |
| Receiver.Unregister | netwatch/src/main/java/ir/drax/netwatch/NetworkChangeReceiver.java:265-272 | unregistering hides the alert and changes no state; in particular it leaves the pending tick in place |
| Receiver.DetectAndActFiresOnce | netwatch/src/main/java/ir/drax/netwatch/NetworkChangeReceiver.java:69-107 | one reconciliation fires at most one host callback; it fires exactly one for a real change while a navigator is set |
| Receiver.DetectAndActSettles | netwatch/src/main/java/ir/drax/netwatch/NetworkChangeReceiver.java:69-107 | once a change is committed, proposing the same status again is a no-op |
| Receiver.UnlistenedDisconnectRepeats | netwatch/src/main/java/ir/drax/netwatch/NetworkChangeReceiver.java:73-77 | without a navigator, a disconnect is not committed, so every repeated disconnect proposal hides the alert again |
| Receiver.FirstProposalIsChange | netwatch/src/main/java/ir/drax/netwatch/NetworkChangeReceiver.java:44-54 | the state at class load (`Receiver.Initial`) has LAST_STATE -1, counter 0, budget 1 and no tick posted, and is well formed; since nothing is committed yet, the first proposal always counts as a change |
| Receiver.CheckStateReplacesPendingTick | netwatch/src/main/java/ir/drax/netwatch/NetworkChangeReceiver.java:212-213 | a second checkState cancels the first one's tick; the state afterwards is as if only the second call happened |
| Receiver.OnReceiveRepeats | netwatch/src/main/java/ir/drax/netwatch/NetworkChangeReceiver.java:62-67 | a broadcast does not commit, so the same broadcast again repeats the same restart |
| Receiver.NegativeBudgetNeverTimesOut | netwatch/src/main/java/ir/drax/netwatch/NetworkChangeReceiver.java:206-218 | a negative budget is kept; each ended attempt lowers it further, and meanwhile no timeout reports a disconnect |
| Trace.CallbacksAlternate | netwatch/src/main/java/ir/drax/netwatch/NetworkChangeReceiver.java:69-107 | with a navigator set, the callbacks of any run alternate between connected and disconnected, starting from the committed status; the last callback always agrees with the final committed status |
| Trace.RunWithAppend | netwatch/src/main/java/ir/drax/netwatch/NetworkChangeReceiver.java:51 | running two event sequences one after the other on the single handler queue is the same as running their concatenation |
| Trace.RunKeepsInvariant | netwatch/src/main/java/ir/drax/netwatch/NetworkChangeReceiver.java:50-54 | every run keeps the state well formed: the budget is non-zero and any pending delay is within [0, 60000], the range of the backoff the model schedules with; no run changes the navigator or the notification flag; a built template stays built |
| Trace.BudgetFourBacksOff | netwatch/src/main/java/ir/drax/netwatch/NetworkChangeReceiver.java:205-246 | a fresh cycle with budget 4 spends three ended attempts; it reschedules after 0, 20, 80 and 180 ms and ends with counter 3 and budget 1 |
| Trace.LastAttemptTimeoutDisconnects | netwatch/src/main/java/ir/drax/netwatch/NetworkChangeReceiver.java:215-219 | on the last attempt (budget 1), a timeout reports a committed connection as lost exactly once; it commits disconnected and resets the counter |
| Trace.FourAttemptDisconnect | netwatch/src/main/java/ir/drax/netwatch/NetworkChangeReceiver.java:213-233 | after those three ended attempts, the next timeout reports the disconnect exactly once and resets the counter |
| Trace.DefaultBudgetHasNoRetry | netwatch/src/main/java/ir/drax/netwatch/NetworkChangeReceiver.java:194-219 | with the default budget of 1 the first timeout already reports the disconnect, with no retry |
| Trace.ReconnectOnReply | netwatch/src/main/java/ir/drax/netwatch/NetworkChangeReceiver.java:222-226 | while disconnected, one reply hides the alert and reports the OS connection type once; it commits connected, resets the counter and leaves the budget at 1 |

## Behaviour worth knowing

- A no-op reconciliation does not reset the backoff counter. The early return on line 70 comes before the reset on line 71.
- The first proposal is always a change, because the sentinel -1 equals neither status (line 44).
- A disconnect without a navigator only hides the alert. It does not commit the new status, because lines 74-77 return before line 106.
- A broadcast restarts the probe cycle with a budget of 4 (line 66).
- `unregister` hides the alert but does not cancel the pending probe tick (lines 265-272).

## Left out

- Notification building, channels, icons, colours, message text, the cancelable flag and the `NotificationManager` calls (lines 83-98, 114-121, 167-180) are Android UI. They appear only as the `BuildTemplate`, `ShowAlert` and `HideAlert` effects.
- `ConnectivityManager` queries are Android I/O. Their result is an input of type `Option<NetKind>`.
- The `Ping` class and its ICMP transport are not part of this model. Its `timeout`, `replied` and `ended` reports are free events in any order.
- Handler timing is left out; only the one pending tick and its delay are recorded.
- `Log.e` and the configuration setters (lines 182-192, 249-259) are left out. Configuration is part of the state, and no event in a run changes it, except that the template gets built lazily.
- `unregister`'s receiver detachment and its swallowed exception are left out; only its hidden alert is modelled.
- `hideNotification` as a public entry point is not modelled separately; it is the `HideAlert` effect.
- Receiver.CheckState: schedules with the corrected backoff, so from a counter of 10363 in magnitude on it posts the 60000 ms cap where the source's getDelay() posts a wrapped, possibly negative, delay (see Findings); below that both agree.
- Receiver.CheckStateDefault: schedules with the corrected backoff; it diverges from the source from a counter of 10363 in magnitude on, as Receiver.CheckState does.
- Receiver.Ended: reschedules with the corrected backoff; from a counter of 10362, the next ended attempt posts 60000 ms in the model but -2147131916 ms in the source.
- Trace.RunKeepsInvariant: the bound on pending delays, [0, 60000], holds for the corrected backoff only; in the source a negative delay can be posted once the counter reaches 10363.
- Trace.CallbacksAlternate: holds only for runs with a navigator set throughout. With the setter, a host could install a navigator after a silent commit and then see the same callback twice.

## Findings

| source | as written | input that shows it | evidently intended | confidence | as-written member | corrected member |
|---|---|---|---|---|---|---|
| netwatch/src/main/java/ir/drax/netwatch/NetworkChangeReceiver.java:240 | `unchanged_counter * unchanged_counter * GENERAL_PING_INTERVAL_MULTIPLIER_MS` is evaluated in 32-bit `int` and widened to `long` only afterwards | counter 10363 (10363 consecutive `ended` reports without a transition): 10363²×20 = 2147835380 wraps to -2147131916, which is below the cap, so the tick is posted with a negative delay and the backoff collapses | the delay stays at the 60000 ms cap for every counter from 55 on | medium: it depends on how often the `Ping` class, which is not modelled, reports `ended`; not executed | Backoff.AsWrittenOverflowsAt10363 | Backoff.DelayCapped |

The state machine (`Receiver.CheckState`, `Receiver.Ended`) uses the corrected `Backoff.Delay`.
`Backoff.AsWrittenAgreesWhileNoOverflow` shows that the corrected delay and the Java computation
agree for every counter up to 10362 in magnitude.
