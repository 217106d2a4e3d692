# Notification routing, dispatch and inbox state

A Dafny model of the notification component of the agnostic exportable components
boilerplate. It covers three pieces:

- **The channel router** (`Router`). It maps an importance level (`low`, `normal`,
  `high`), an optional context tag and a user's preferred channels to the list of
  channels a notification is delivered on: `email`, `sms` or `in-app`.
  - High importance lists SMS, then email, then in-app.
  - Normal importance lists email, then in-app.
  - Every other importance lists in-app. Email and SMS are added only under the
    `opt-in` context tag.
  - Each channel is kept only when the user's preference list contains it.
- **The POST /notifications handler** (`Controller`), modelled as the trace of what it
  does:
  - it fetches the preferences and builds the notification record;
  - it routes, then calls the email, SMS and in-app senders in that fixed order for the
    channels that were routed;
  - it saves the record and answers 201 with the routed channels;
  - the first call that throws ends the sequence with a 500 response carrying the
    error's message.
- **The client notifications hook** (`Hooks`). It is a class holding the notifications
  list and the loading flag. It provides:
  - the derived unread count;
  - loading, which sets loading, fetches, replaces the list and clears loading;
  - mark-as-read, which asks the server first and then marks every item with that id
    as read.

The shared value types are in `Models`. `Option`, `Outcome` and `Result` are in
`Wrappers`.

Each imperative routine is written as a method whose `ensures` ties its result to a pure
specification function:

- `Router.RouteNotification` is tied to `Router.Route`;
- `Controller.CreateNotification` is tied to `Controller.HandlerTrace`.

The properties the code promises are proved as lemmas about these functions.

Collaborators and ambient inputs become parameters of the model:

- the preference lookup;
- the three senders and `save`, as a function giving the error each call throws, if any;
- the clock;
- the client's fetch and acknowledgement.

## Model

| member | source | states |
|---|---|---|
| Models.DefaultPreference | agnostic-exportable-components-backend/mcp/server/models/UserPreference.ts:18-24 | the placeholder lookup returns a preference for the requested user allowing all three channels |
| Router.Candidates | agnostic-exportable-components-backend/mcp/server/utils/notificationRouter.ts:11-26 | each importance row lists one to three distinct channels |
| Router.KeepPreferred | agnostic-exportable-components-backend/mcp/server/utils/notificationRouter.ts:13-25 | filtering a row by preference never lengthens it |
| Router.RouteNotification | agnostic-exportable-components-backend/mcp/server/utils/notificationRouter.ts:5-28 | the push-by-push routine returns exactly the row of its importance filtered by the user's preferences |
| Router.RouteHigh | agnostic-exportable-components-backend/mcp/server/utils/notificationRouter.ts:12-15 | high importance gives SMS, email, in-app in that order, each only when preferred |
| Router.RouteNormal | agnostic-exportable-components-backend/mcp/server/utils/notificationRouter.ts:16-19 | normal importance gives email then in-app, each only when preferred, and never SMS |
| Router.RouteLow | agnostic-exportable-components-backend/mcp/server/utils/notificationRouter.ts:20-25 | any other importance gives in-app when preferred, then email and SMS only when preferred and the context is exactly "opt-in" |
| Router.RouteFallthrough | agnostic-exportable-components-backend/mcp/server/utils/notificationRouter.ts:20-26 | an importance outside the union is routed exactly as low is |
| Router.KeepPreferredMembers | agnostic-exportable-components-backend/mcp/server/utils/notificationRouter.ts:13-25 | a channel is in the filtered row exactly when it is in the row and in the preferences |
| Router.KeepPreferredOrdered | agnostic-exportable-components-backend/mcp/server/utils/notificationRouter.ts:13-25 | the filtered row keeps the row's relative order |
| Router.KeepPreferredUnique | agnostic-exportable-components-backend/mcp/server/utils/notificationRouter.ts:13-25 | any list that is in the row's order and has the filtered row's members equals the filtered row |
| Router.RouteMembers | agnostic-exportable-components-backend/mcp/server/utils/notificationRouter.ts:10-27 | the output contains a channel if and only if its row lists it and the user prefers it; so every output channel is preferred |
| Router.RouteOrdered | agnostic-exportable-components-backend/mcp/server/utils/notificationRouter.ts:10-27 | the output follows the row's order, has no duplicates and has at most three channels |
| Router.RouteUnique | agnostic-exportable-components-backend/mcp/server/utils/notificationRouter.ts:10-27 | membership and row order determine the output completely |
| Router.RouteSameMembers | agnostic-exportable-components-backend/mcp/server/utils/notificationRouter.ts:13-25 | two preference lists with the same members route alike, whatever their order or repetitions |
| Router.RouteNoPreferences | agnostic-exportable-components-backend/mcp/server/utils/notificationRouter.ts:10-27 | a user who allows no channel gets an empty list, for every importance and context |
| Router.KeepPreferredNone | agnostic-exportable-components-backend/mcp/server/utils/notificationRouter.ts:13-25 | a row filtered by an empty preference list is empty |
| Router.RouteDefaultPreference | agnostic-exportable-components-backend/mcp/server/models/UserPreference.ts:18-24 | under the placeholder preferences every channel of the row is used, in the row's order |
| Router.RouteScenarioHigh | agnostic-exportable-components-backend/mcp/server/utils/notificationRouter.ts:12-15 | high importance with email and in-app preferred gives email, then in-app |
| Router.RouteScenarioNormal | agnostic-exportable-components-backend/mcp/server/utils/notificationRouter.ts:16-19 | normal importance with only SMS preferred gives no channel |
| Router.RouteScenarioOptIn | agnostic-exportable-components-backend/mcp/server/utils/notificationRouter.ts:20-25 | low importance with opt-in and all channels preferred gives in-app, email, SMS |
| Controller.FirstFailing | agnostic-exportable-components-backend/mcp/server/controllers/NotificationController.ts:26-39 | the index found is the first call that throws, or the number of calls when none throws |
| Controller.CreateNotification | agnostic-exportable-components-backend/mcp/server/controllers/NotificationController.ts:10-41 | the handler, step by step, produces exactly the trace of the handler specification |
| Controller.Dispatch | agnostic-exportable-components-backend/mcp/server/controllers/NotificationController.ts:25-39 | the guarded sends, the save and the response give exactly the run of the plan |
| Controller.Attempt | agnostic-exportable-components-backend/mcp/server/controllers/NotificationController.ts:26-34 | one guarded awaited call is made only when its guard holds, and it throws exactly when the guard holds and the call fails |
| Controller.GuardedStep | agnostic-exportable-components-backend/mcp/server/controllers/NotificationController.ts:26-34 | a guarded call is skipped when its guard is false; otherwise it is performed and then either caught or followed by the rest |
| Controller.PlanFollowsDispatchOrder | agnostic-exportable-components-backend/mcp/server/controllers/NotificationController.ts:26-36 | the calls are the routed channels in email, SMS, in-app order, each sent once, followed by the save; exactly the routed channels are sent |
| Controller.PlanIsDispatchedSends | agnostic-exportable-components-backend/mcp/server/controllers/NotificationController.ts:26-36 | the plan is the sender call of each routed channel in dispatch order, followed by the save |
| Controller.DispatchedMembers | agnostic-exportable-components-backend/mcp/server/controllers/NotificationController.ts:26-34 | a channel is sent exactly when the router returned it |
| Controller.PlanSendsRouted | agnostic-exportable-components-backend/mcp/server/controllers/NotificationController.ts:26-34 | each sender is called exactly once when its channel was routed and never otherwise |
| Controller.PlanSavesOnceLast | agnostic-exportable-components-backend/mcp/server/controllers/NotificationController.ts:35-36 | the record is saved exactly once, as the last call, and it is still saved when no channel was routed |
| Controller.PlanIgnoresRouteOrder | agnostic-exportable-components-backend/mcp/server/controllers/NotificationController.ts:26-34 | the order the router lists channels in has no effect on the order of the sends |
| Controller.SavedRecordCarriesRequest | agnostic-exportable-components-backend/mcp/server/controllers/NotificationController.ts:16-22 | the saved record carries the request's user, message, importance and context, and the clock reading as its creation time |
| Controller.ExecuteShape | agnostic-exportable-components-backend/mcp/server/controllers/NotificationController.ts:11-40 | a run is the calls it makes followed by exactly one response |
| Controller.RanUpToFirstFailing | agnostic-exportable-components-backend/mcp/server/controllers/NotificationController.ts:11-40 | the calls made stop at the first that throws, and the response is 201 when none threw and otherwise 500 with that call's error |
| Controller.ExecuteRuns | agnostic-exportable-components-backend/mcp/server/controllers/NotificationController.ts:11-40 | a run performs the calls up to and including the first that throws, then answers 201 with the channels or 500 with the thrown message |
| Controller.VerdictIsResponse | agnostic-exportable-components-backend/mcp/server/controllers/NotificationController.ts:37-39 | a run ends in a response, on both the success and the error path |
| Controller.HandlerBrackets | agnostic-exportable-components-backend/mcp/server/controllers/NotificationController.ts:10-41 | preferences are fetched first and only once; exactly one response is sent, and it is the last event |
| Controller.Bracketed | agnostic-exportable-components-backend/mcp/server/controllers/NotificationController.ts:10-41 | a trace made of one fetch, some calls and one response has the fetch only first and the response only last |
| Controller.HandlerSucceeds | agnostic-exportable-components-backend/mcp/server/controllers/NotificationController.ts:11-37 | the response is 201 if and only if the lookup and every call succeed; in that case every planned call is made and the body carries the router's output |
| Controller.ExecuteCompletes | agnostic-exportable-components-backend/mcp/server/controllers/NotificationController.ts:26-37 | when no call throws, all of them are made and the answer is 201 with the channels |
| Controller.HandlerLookupFails | agnostic-exportable-components-backend/mcp/server/controllers/NotificationController.ts:38-39 | when the preference lookup throws, nothing else is called and the answer is 500 with its message |
| Controller.HandlerStepFails | agnostic-exportable-components-backend/mcp/server/controllers/NotificationController.ts:26-39 | when a call throws, the calls after it, including the save, are skipped, and the answer is 500 with its message |
| Controller.ExecuteStops | agnostic-exportable-components-backend/mcp/server/controllers/NotificationController.ts:26-39 | a run in which some call throws stops at the first such call and answers 500 with its error |
| Controller.HandlerFails | agnostic-exportable-components-backend/mcp/server/controllers/NotificationController.ts:38-39 | on any failure the one response is a 500 without success, and no 201 is ever sent |
| Controller.HighSendsEmailBeforeSms | agnostic-exportable-components-backend/mcp/server/controllers/NotificationController.ts:24-37 | for high importance under the placeholder preferences the body lists SMS first, yet email is the first sender called |
| Hooks.CountUnread | agnostic-exportable-components-frontend/mcp/client/hooks/useNotifications.ts:27 | the unread count never exceeds the list's length |
| Hooks.CountUnreadWithId | agnostic-exportable-components-frontend/mcp/client/hooks/useNotifications.ts:31 | the unread items carrying an id never outnumber the unread items |
| Hooks.MarkRead | agnostic-exportable-components-frontend/mcp/client/hooks/useNotifications.ts:31 | the length and every id, message and timestamp are kept; an item is read afterwards exactly when it was read already or carries the id |
| Hooks.CountUnreadIsUnreadPositions | agnostic-exportable-components-frontend/mcp/client/hooks/useNotifications.ts:27 | the count is exactly the number of positions holding an unread item |
| Hooks.UnreadPositionsSnoc | agnostic-exportable-components-frontend/mcp/client/hooks/useNotifications.ts:27 | appending an item adds its position to the unread positions exactly when it is unread |
| Hooks.MarkReadEffect | agnostic-exportable-components-frontend/mcp/client/hooks/useNotifications.ts:31 | items with another id are left untouched, and every item with the id ends up read |
| Hooks.MarkReadIdempotent | agnostic-exportable-components-frontend/mcp/client/hooks/useNotifications.ts:31 | marking the same id twice is the same as marking it once |
| Hooks.MarkReadCommutes | agnostic-exportable-components-frontend/mcp/client/hooks/useNotifications.ts:31 | marking two ids gives the same list in either order |
| Hooks.MarkReadNoUnreadMatch | agnostic-exportable-components-frontend/mcp/client/hooks/useNotifications.ts:31 | an id that no unread item carries changes nothing |
| Hooks.MarkReadLowersCount | agnostic-exportable-components-frontend/mcp/client/hooks/useNotifications.ts:27-31 | marking lowers the unread count by exactly the number of unread items carrying the id |
| Hooks.CountUnreadWithIdNone | agnostic-exportable-components-frontend/mcp/client/hooks/useNotifications.ts:27-31 | when every item with the id is read, none counts |
| Hooks.CountUnreadWithIdUnique | agnostic-exportable-components-frontend/mcp/client/hooks/useNotifications.ts:27-31 | a single unread item carrying an id that no other item carries counts once |
| Hooks.MarkReadBadgeCases | agnostic-exportable-components-frontend/mcp/client/hooks/useNotifications.ts:27-31 | the badge drops by one for a unique unread id, and does not move for an id that is absent or only on read items |
| Hooks.NotificationsHook.constructor | agnostic-exportable-components-frontend/mcp/client/hooks/useNotifications.ts:10-11 | the hook starts with an empty list, not loading |
| Hooks.NotificationsHook.UnreadCount | agnostic-exportable-components-frontend/mcp/client/hooks/useNotifications.ts:27 | the badge is derived from the current list and never exceeds its length |
| Hooks.NotificationsHook.SetLoading | agnostic-exportable-components-frontend/mcp/client/hooks/useNotifications.ts:11 | the setter changes only the flag |
| Hooks.NotificationsHook.SetNotifications | agnostic-exportable-components-frontend/mcp/client/hooks/useNotifications.ts:10 | the setter replaces the whole list and changes nothing else |
| Hooks.NotificationsHook.LoadNotifications | agnostic-exportable-components-frontend/mcp/client/hooks/useNotifications.ts:13-18 | on success the list is the fetched data and loading is off, after the steps on, fetch, replace, off; a fetch that throws keeps the list and leaves loading on |
| Hooks.NotificationsHook.MarkAsRead | agnostic-exportable-components-frontend/mcp/client/hooks/useNotifications.ts:29-32 | the acknowledgement is requested first; once it resolves the list is marked and the badge drops by the unread items carrying the id; if it rejects nothing changes |

## Left out

- The React components (inbox, bell, toast) and the style constants are presentation
  only.
- The mount effect of the hook only calls `LoadNotifications`. React's effect scheduling,
  re-rendering and the commented-out polling are not modelled.
- HTTP is not modelled: the axios calls behind the fetch and the acknowledgement, and the
  Express request and response objects. The fetch result and the acknowledgement outcome
  are parameters. The request body becomes a `Request` value, and a response becomes a
  `Respond(status, body)` event.
- The senders only log to the console and `save` and `getByUserId` are placeholders. All
  of them are parameters: the lookup is a function, and each call's possible failure is a
  function from the call to the error it throws. Their console output is not modelled.
- `new Date()` is a `Timestamp` parameter.
- Asynchronous interleaving is not modelled. Each awaited call is one step, and two loads
  or marks running at the same time are not considered. Because of this, the hook's
  updater form (which applies the update to the latest list) is equivalent here to
  updating the current list.
- A thrown `null` or `undefined` makes the catch block throw when it reads the error's
  message, so the handler's promise rejects and the handler sends no response itself.
  Any other thrown value gives a 500 body whose `error` is that value's `message`
  property, left out when the value has none. The model assumes every failure carries a
  message string.
- An unrecognized importance string is routed as low. Rejecting it would be safer, but
  the code does not, and the model follows the code: `Importance.Unrecognized` keeps the
  raw string (never one of the three tags), and `Router.RouteFallthrough` states the
  routing.
- A failed mark-as-read acknowledgement leaves the list unchanged: the local update runs
  only after the await resolves, so there is no optimistic update to roll back.
- A fetch that throws leaves `loading` set. The code has no `finally`, so the flag is
  never cleared; `Hooks.NotificationsHook.LoadNotifications` states this.
- A request body with a missing user id, message or importance is not modelled. The
  model's `Request` always carries all three; only the context is optional.
