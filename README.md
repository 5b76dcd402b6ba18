# Geofencing dashboard: alert channel, alert feed and polygon authoring in Dafny

This project models the parts of a vehicle-geofencing dashboard (a React front end) that have behaviour worth stating:

- the **live alert feed** of the top-level component: each pushed alert is prepended and the list is capped at 50. Around it sit the navigation badge that counts the feed and the active-link test (module `App`);
- the **reconnecting alert channel** (`useWebSocket`). It is a class over the hook's two slots, the latest socket and the latest retry timer. Each socket handler, the retry timer and the cleanup closure is a method. What the hook asks of the browser and of its consumer goes into an effect log: create a socket, arm or cancel a 3000 ms retry, close a socket, call the consumer, show a toast. Two ghost sets stand for the browser's side: sockets whose close event is still to come, and retries still armed. The object invariant says that at no time is there more than one socket or pending retry (module `WebSocket`);
- **polygon authoring**: map clicks append points, and submission refuses drafts of fewer than 4 points. Otherwise it closes the ring on a copy by appending the first point when the last one differs (module `GeofenceManagement`). It also covers the category colours and the point-count caption;
- the **query and payload builders** of the violation-history filters and of the alert-rule form (modules `ViolationHistory` and `AlertConfiguration`);
- the **dashboard view-model**: the ten most recent alerts, the stat counts that default to 0, and the labels and colours chosen per alert (module `Dashboard`);
- cross-component behaviour in module `Scenarios`. It covers the dashboard listing the newest arrivals first, an entry-then-exit run end to end, and what cleanup does not prevent.

Helpers: `Wrappers` (an `Option` for JavaScript's `null`/`undefined`, `Min`), `Text` (decimal rendering of a count and the `"{n} noun{s}"` phrase shown only while the count is positive, `ShownCountPhrase`, used by both the alert badge and the point-count caption, with a read-back lemma), `Alerts` (the decoded alert record).

Modelling choices:
- Network calls, `JSON.parse`, `setTimeout` and toasts are not run. Instead:
  - the outcome of a POST is a boolean parameter;
  - `JSON.parse` is a `decode: string -> Option<Alert>` given to the channel's constructor;
  - whether `new WebSocket(...)` throws is a boolean parameter of `Connect` / `RetryFires`;
  - timers are handles in the effect log;
  - timing is reduced to the constant `RetryDelayMs = 3000`.
- A decoded alert's `vehicle` and `geofence` are optional. `JSON.parse` can give an object without them: the consumer is then still called, and building the toast throws and is only logged. On the dashboard the same alert makes rendering its card throw (see "## Left out").
- Points are pairs over an abstract coordinate type with equality. The closure compares coordinates one at a time, as the code does with `!==`.
- `Connect` requires that no socket is live and no retry is armed. The code calls `connect()` when the effect runs and from a retry that is firing. The first run of the effect, which the constructor's state stands for, and every firing retry satisfy this; later runs of the effect do not (see "## Left out").
- `Open` and `Message` are handlers of the slotted socket, so they require that socket to be live, as `Close` does. Every event then keeps the channel trying (a socket live or a retry armed, `AlertSocket.Attempting`) until the cleanup closure runs.

Where the code falls short of what a reconnecting alert channel and a polygon builder would be expected to do, the model follows the code:
- **Cleanup does not stop reconnection.** It cancels the slotted retry and calls `close()` on the slotted socket. That socket's `onclose` is still attached, so its close event arms a fresh retry (`Scenarios.CloseAfterTeardownRearms`).
- **Cleanup is not idempotent.** Neither slot is emptied, so a second run closes the same socket again (`Scenarios.TeardownTwiceClosesTwice`).
- **An `error` event arms nothing.** Of the socket's events, only `close` arms a retry.
- **The 4-point check counts points, not distinct vertices.** `[A, A, A, A]` is accepted as a ring.
- **The 4-point check counts the unclosed draft.** The refusal message says that 3 points suffice and that the polygon closes itself, but the check runs before the closure, so a triangle of 3 clicked vertices is refused; it is accepted only when its first vertex is clicked again as a fourth point (`GeofenceManagement.ClickedTriangleNeedsItsFirstVertexAgain`).
- **The toast follows the consumer call, not the feed update.** `toast.success` is called right after `onMessage(alert)` returns, and that call only schedules the React state update of the feed; the feed has not been re-rendered yet when `toast.success` is called. Which of the two appears first on screen is up to React's batching.
- **Hiding the geofence form keeps the draft.** Only a successful submission clears it.
- **The click handler is mis-wired.** `MapDrawer` receives a setter that stores its argument as `coordinates`, but it is handed an updater function. So `formData.coordinates` becomes that one-parameter function, whose `.length` is 1: the caption always reads "1 point drawn" and the `< 4` check refuses every submission, so in the program as written the accepting branch of `handleSubmit` is never reached (`GeofenceManagement.MisWiredDrawingRefusesSubmission`, and "## Findings"). The rest of the model follows the append the updater is written to perform (`GeofenceManagement.AddPoint`).

## Model

| member | source | states |
|---|---|---|
| App.Record | src/App.jsx:28 | the new feed has length min(len+1, 50), holds the new alert at index 0, and after it the first len-1 of the old feed in order |
| App.RecordBelowCapacity | src/App.jsx:28 | below 50 alerts nothing is evicted: the result is exactly the alert prepended to the old feed, one longer |
| App.RecordAtCapacity | src/App.jsx:28 | at 50 alerts the oldest (last) one is the one dropped |
| App.RecordKeepsDuplicates | src/App.jsx:28 | no deduplication: recording the same alert twice puts it at index 0 and index 1 |
| App.Replay | src/App.jsx:27-29 | whatever sequence of alerts arrives, the feed never holds more than 50 |
| App.ReplayIsNewestFirst | src/App.jsx:27-29 | the feed after any arrivals is the newest 50 of them in reverse arrival order, not timestamp order |
| App.FeedPosition | src/App.jsx:28 | feed position i holds the (i+1)-th most recent arrival |
| App.BadgeReadsBack | src/App.jsx:93-97 | the badge is shown exactly when the feed is non-empty, and then its leading digits read back as the feed length, followed by " Active Alert" with an "s" exactly when the length is not 1 |
| App.IsActive | src/App.jsx:31 | a link is active exactly when the current pathname equals its path |
| App.AtMostOneActiveLink | src/App.jsx:43-90 | the six link targets are distinct, so at most one link is highlighted |
| GeofenceManagement.AddPoint | src/components/GeofenceManagement.jsx:245-246 | a click appends exactly one point at the end and keeps every earlier point |
| GeofenceManagement.DrawRecordsEveryClick | src/components/GeofenceManagement.jsx:242-251 | any run of clicks leaves the draft equal to the start followed by all clicked points in order, with nothing merged or dropped |
| GeofenceManagement.ClickAsWritten | src/components/GeofenceManagement.jsx:194 | as wired, a click leaves the form holding the updater function itself, no drawn points, with `.length` 1 |
| GeofenceManagement.MisWiredDrawingRefusesSubmission | src/components/GeofenceManagement.jsx:50-53 | as wired, after any non-empty run of clicks the caption reads "1 point drawn" and the `< 4` check refuses the submission |
| GeofenceManagement.CloseRing | src/components/GeofenceManagement.jsx:55-62 | a non-empty draft is closed (first point equals last), the draft is a prefix of the ring, and the ring is one point longer exactly when the draft was not already closed |
| GeofenceManagement.CloseRingIdempotent | src/components/GeofenceManagement.jsx:55-62 | closing an already closed ring returns it unchanged |
| GeofenceManagement.CloseRingOfClosedDraft | src/components/GeofenceManagement.jsx:60 | a draft whose first and last points coincide is posted as drawn |
| GeofenceManagement.CloseRingOfOpenDraft | src/components/GeofenceManagement.jsx:60-61 | an open draft gets exactly a copy of its first point appended |
| GeofenceManagement.HandleSubmit | src/components/GeofenceManagement.jsx:47-80 | submission is refused, with nothing posted and the draft kept, exactly when the draft has fewer than 4 points; otherwise the closed ring is posted, and the draft is cleared only if the POST succeeds |
| GeofenceManagement.PostedRingIsWellFormed | src/components/GeofenceManagement.jsx:50-63 | every posted ring is closed, has at least 4 points and starts with the draft |
| GeofenceManagement.ClickedTriangleNeedsItsFirstVertexAgain | src/components/GeofenceManagement.jsx:50-53 | the length check sees the unclosed draft: three clicked vertices are refused, and the same triangle with its first vertex clicked again is accepted and posted as drawn |
| GeofenceManagement.PointCountLabelReadsBack | src/components/GeofenceManagement.jsx:168-172 | the caption is shown exactly when at least one point is drawn, and then reads back as the point count, followed by " point drawn" or " points drawn" as the count is 1 or not |
| GeofenceManagement.CategoryColor | src/components/GeofenceManagement.jsx:82-90 | delivery_zone is blue, restricted_zone red, toll_zone yellow, customer_area green, and every other category gray (each colour if and only if) |
| GeofenceManagement.CategoryColorAsWritten | src/components/GeofenceManagement.jsx:82-90 | the lookup as written never ends at undefined; it yields an inherited member exactly for the names every object inherits, and otherwise the own entry for the four known categories and the gray fallback for the rest, agreeing with CategoryColor |
| GeofenceManagement.ConstructorCategoryIsNotAColor | src/components/GeofenceManagement.jsx:89 | for the category "constructor" the lookup as written yields the inherited member, where gray is intended |
| WebSocket.NoticeFor | src/hooks/useWebSocket.js:30-36 | a toast can be built exactly when the alert has both a vehicle and a geofence; its icon is the siren exactly for "entry"; its text is vehicle number, verb, geofence name |
| WebSocket.Verb | src/hooks/useWebSocket.js:31 | the verb is "entered" exactly for "entry" and "exited" otherwise |
| WebSocket.MessageEffects | src/hooks/useWebSocket.js:24-40 | a message that does not decode has no effect; one that decodes first calls the consumer with the decoded alert, then shows that alert's toast when one can be built and nothing else when it cannot |
| WebSocket.TeardownEffects | src/hooks/useWebSocket.js:63-70 | cleanup cancels the slotted timer when there is one and closes the slotted socket when there is one, in that order and nothing else |
| WebSocket.AlertSocket.constructor | src/hooks/useWebSocket.js:5-6 | the state of the first run of the effect: both slots empty, with no socket live and no retry armed |
| WebSocket.AlertSocket.Connect | src/hooks/useWebSocket.js:9-59 | on success the new socket is stored in the socket slot and the timer slot is untouched; if construction throws, exactly one 3000 ms retry is armed and slotted and the socket slot is untouched; either way the channel is trying |
| WebSocket.AlertSocket.Open | src/hooks/useWebSocket.js:13-22 | an open event of the slotted, live socket cancels a slotted retry and empties the timer slot; nothing else changes, and the channel is still trying |
| WebSocket.AlertSocket.Message | src/hooks/useWebSocket.js:24-40 | a message on the slotted, live socket has the effects of MessageEffects on the decoded message; neither slot nor any retry changes, and the channel is still trying |
| WebSocket.AlertSocket.Error | src/hooks/useWebSocket.js:42-44 | an error event changes nothing |
| WebSocket.AlertSocket.Close | src/hooks/useWebSocket.js:46-52 | whatever the cause, exactly one fresh 3000 ms retry is armed and slotted; the socket slot is untouched, and the channel is still trying |
| WebSocket.AlertSocket.RetryFires | src/hooks/useWebSocket.js:49-57 | a firing retry calls connect, with the same outcomes as Connect, so the channel keeps trying |
| WebSocket.AlertSocket.Teardown | src/hooks/useWebSocket.js:63-70 | cleanup emits TeardownEffects of the two slots and cancels the pending retry; it empties neither slot, and a live socket stays live (its close event is still to come), so the channel is still trying exactly when a socket was live |
| WebSocket.AtMostOnePendingRetry | src/hooks/useWebSocket.js:46-58 | in every reachable state at most one retry is pending, and never a retry together with a live socket; a channel that is trying has exactly one of the two |
| WebSocket.MessageDelivers | src/hooks/useWebSocket.js:24-40 | each decodable message adds exactly its alert to the consumer's calls, in arrival order, and a malformed one adds nothing; the toast log grows by that alert's toast when it can be built |
| ViolationHistory.BuildParams | src/components/ViolationHistory.jsx:43-48 | each of the five filters is a query parameter exactly when its value is non-empty, with that value, and there are no other parameters |
| ViolationHistory.HandleFilterChange | src/components/ViolationHistory.jsx:61-63 | the changed filter takes the new value and every other filter is unchanged |
| ViolationHistory.ClearFilters | src/components/ViolationHistory.jsx:65-73 | the reset equals the initial filters: all empty except a limit of '50' |
| ViolationHistory.ParamsAfterClear | src/components/ViolationHistory.jsx:40-73 | after a reset the query parameters are exactly limit = '50' |
| AlertConfiguration.BuildPayload | src/components/AlertConfiguration.jsx:47-53 | the payload always carries geofence_id and event_type from the form, carries vehicle_id exactly when one was chosen (with its value), and no other key |
| AlertConfiguration.FormAfterSubmit | src/components/AlertConfiguration.jsx:44-62 | after a successful POST the form equals its initial state; after a failed one it keeps the user's input |
| AlertConfiguration.EventTypeBadge | src/components/AlertConfiguration.jsx:208-212 | the badge is red exactly for 'entry', green exactly for 'exit', and blue for anything else such as 'both' |
| Dashboard.RecentAlerts | src/components/Dashboard.jsx:65 | the list is the first min(10, n) alerts of the feed, in the same order |
| Dashboard.ListCount | src/components/Dashboard.jsx:29-31 | a stat is the length of the returned list, or 0 when the list is missing |
| Dashboard.TotalCount | src/components/Dashboard.jsx:32 | the violations stat is the returned total, or 0 when it is missing |
| Dashboard.StatsFrom | src/components/Dashboard.jsx:28-33 | each card takes its count or total from its own response, and with all four missing the cards equal their initial zeros |
| Dashboard.EventLabel | src/components/Dashboard.jsx:78 | the label is 'Entered' exactly for 'entry' and 'Exited' otherwise |
| Dashboard.BorderTone | src/components/Dashboard.jsx:69 | the card border is red exactly for an entry and green for every other event type |
| Dashboard.CategoryTone | src/components/Dashboard.jsx:85 | the category badge is red exactly for restricted_zone and blue otherwise |
| Scenarios.DashboardShowsNewestFirst | src/components/Dashboard.jsx:65 | for any arrivals the recent-alerts slice holds min(10, n) alerts, entry i the (i+1)-th most recently received one |
| Scenarios.NoticeAgreesWithCard | src/hooks/useWebSocket.js:31-34 | the toast and the dashboard card agree on whether an alert is an entry |
| Scenarios.EnterThenExit | src/hooks/useWebSocket.js:24-36 | an entry then an exit arrive: the consumer gets them in that order, the feed is [exit, entry], and the two toasts follow in order (siren, then check mark) |
| Scenarios.CloseAfterTeardownRearms | src/hooks/useWebSocket.js:46-70 | after cleanup, the closed socket's close event still arms a 3000 ms retry and slots it |
| Scenarios.TeardownTwiceClosesTwice | src/hooks/useWebSocket.js:63-70 | running cleanup twice closes the same socket twice |
| Scenarios.ConstructionAlwaysFails | src/hooks/useWebSocket.js:53-58 | when constructing the socket throws on every attempt, each failure arms exactly one retry, with no limit on the number of attempts |

## Left out

- REST calls (`apiClient.get`/`post`) and their error paths: the API client is not part of this model. A POST's outcome is a boolean parameter where it decides a state change.
- The fetch functions (`fetchGeofences`, `fetchViolations`' request itself, `fetchData`, `fetchStats`) are left out as I/O. Only the request parameters and defaulted counts they compute are modelled.
- Toasts beyond their text and icon, `console` logging, and Leaflet rendering (including the marker-icon patch) are left out as UI side effects.
- CSS classes are reduced to the colour chosen.
- The browser `WebSocket` object and `setTimeout` timing are reduced to handles and the constant 3000 ms.
- The `VITE_WS_URL` / default URL choice is configuration, not behaviour.
- React lifecycle is left out. The effect re-runs whenever `onMessage` changes, and the App passes a fresh closure on every render, so each run tears down and connects anew. That is framework behaviour, and the model covers the first run of the effect.
- Later runs of the effect: `wsRef` and `reconnectTimeoutRef` belong to the component, and cleanup empties neither, so a later run starts with the previous run's socket (still closing, its `onclose` attached) and timer id in the refs. That socket's close event then arms a retry whose `connect()` overwrites the new run's `wsRef.current`. The model's constructor starts from empty refs, so this interleaving across runs is not modelled.
- Rendering a dashboard card dereferences `alert.vehicle` and `alert.geofence` (src/components/Dashboard.jsx:75-87), so a delivered alert missing either, among the ten shown, makes the dashboard render throw. `Dashboard.EventLabel`, `Dashboard.BorderTone` and `Dashboard.CategoryTone` take the alert's strings and do not model that error path.
- Floating point is left out: coordinates are abstract, `parseFloat`, `toFixed` and `Date` formatting are not modelled. A JavaScript NaN coordinate would make closure non-idempotent; this model has no NaN.
- Form-field edits are plain setters: name, description, category and the drawing-mode toggle.
- src/components/VehicleManagement.jsx and src/components/LocationUpdates.jsx post forms and parse numbers, with no transformation of their own. They are not part of this model.
- WebSocket.NoticeFor: models a missing `vehicle` or `geofence` as the only way building the toast can fail. `JSON.parse` results that are not objects at all (such as `null`) are outside the `Alert` type.

## Findings

| source | as written | input that shows it | evidently intended | confidence | as-written member | corrected member |
|---|---|---|---|---|---|---|
| src/components/GeofenceManagement.jsx:82-90 | `colors[category] \|\| 'gray'` looks the category up on a plain object literal, so names inherited from `Object.prototype` find a truthy function or object | category "constructor" (or "toString", "valueOf", "__proto__") | every category outside the four known ones is drawn gray | medium, not executed | GeofenceManagement.CategoryColorAsWritten (exhibited by GeofenceManagement.ConstructorCategoryIsNotAColor) | GeofenceManagement.CategoryColor |
| src/components/GeofenceManagement.jsx:194 | `MapDrawer` calls `setCoordinates` with the updater `(prev) => [...prev, newPoint]` (line 246), but the setter it is given stores its argument as `coordinates` outright, so the form holds the function, whose `.length` is 1 | any click on the map, then any further clicks and a submit | each click appends its point, so a drawing of 4 or more points can be submitted | high, not executed | GeofenceManagement.ClickAsWritten (exhibited by GeofenceManagement.MisWiredDrawingRefusesSubmission) | GeofenceManagement.AddPoint |
