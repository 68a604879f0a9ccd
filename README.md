# Status dashboard storage actor, modelled in Dafny

This project models the backend of a small status dashboard. One storage actor,
`GlobalDurableObject`, owns four slots of a key-value store:

- `counter_value`: an integer counter;
- `demo_items`: an ordered list of demo items;
- `system_info`: a system information snapshot;
- `uipath_status`: a mock UiPath connectivity snapshot.

The HTTP routes in `userRoutes` map each method and path to a handler. Every handler except
`/api/test` makes one call on the actor named `"global"` and wraps the result in the
`{ success, data, error }` envelope. `/api/test` answers a fixed envelope without the actor.

Files:

- `wrappers.dfy`: `Option`.
- `types.dfy` (module `Types`): the shared records `DemoItem`, `SystemInfo`, `UiPathStatus` and
  `ApiResponse`. It also has the `Partial<…>` patches as records of optional fields.
- `decimal.dfy` (module `Decimal`): how a template literal renders the uptime's hours and minutes
  (integers below 10^21 all render this way; larger ones switch to exponential notation).
- `durable_object.dfy` (module `DurableObject`):
  - the store, as a record of four optional slots;
  - each actor method as a pure step from the old store to a result and a new store;
  - the list transforms, the snapshot merges and the uptime arithmetic as functions with lemmas;
  - the class `GlobalDurableObject`, whose fields are the four slots. Each method reads its slot;
    the writing methods store a new value there, `GetCounterValue` never writes, and
    `GetDemoItems` writes only when it seeds an absent list. Each is proved against its step function. Each
    writing method's `modifies` clause names its own field only; `GetCounterValue` writes
    nothing and has no `modifies` clause.
- `user_routes.dfy` (module `UserRoutes`): route matching, the actor call each route makes, the
  envelope construction, and whole-request lemmas.

The wall clock is a parameter. A `Clock` holds the ISO string of `new Date().toISOString()` and the
milliseconds of `Date.now()`. The seed list `MOCK_ITEMS` comes from a module that is not part of
this model, so it is a parameter too (`mock`, and the class's `mockItems`). The storage backend is
the class's fields, or a `Store` value in the pure layer. In the routes, whether the actor call
fails is the parameter `storageFails`.

The store has exactly four slots. Demo item ids are never checked for uniqueness:
`AddDemoItemStep` appends any id, and deletion removes every item with the id.

## Model

| member | source | states |
|---|---|---|
| `Types.Success` | worker/userRoutes.ts:11 | a success envelope has `success` true, the data, and no error |
| `Types.Failure` | worker/userRoutes.ts:14 | a failure envelope has `success` false, the message, and no data |
| `Decimal.NatToString` | worker/durableObject.ts:119 | a number renders as a numeral: at least one decimal digit, with no leading zero unless it is 0 |
| `Decimal.DigitsValueOfNatToString` | worker/durableObject.ts:119 | reading the digits back gives the number |
| `Decimal.NatToStringInjective` | worker/durableObject.ts:119 | distinct numbers render differently |
| `DurableObject.GetCounterValueStep` | worker/durableObject.ts:6-9 | returns the stored counter, or 0 when absent, and writes nothing |
| `DurableObject.IncrementStep` | worker/durableObject.ts:10-15 | returns old + amount, stores exactly that, and leaves the other three slots alone |
| `DurableObject.DecrementStep` | worker/durableObject.ts:16-21 | returns old − amount, stores exactly that, and leaves the other three slots alone |
| `DurableObject.GetDemoItemsStep` | worker/durableObject.ts:22-29 | seeds the mock list only when the slot is absent. A stored list, even an empty one, is returned and the store is unchanged |
| `DurableObject.GetDemoItemsIdempotent` | worker/durableObject.ts:22-29 | a second read returns the first read's list and writes nothing |
| `DurableObject.AddDemoItemStep` | worker/durableObject.ts:30-35 | the result is the old list with the item at the end, one longer, with no id check. It is stored, and nothing else changes |
| `DurableObject.ApplyPatch` | worker/durableObject.ts:39 | keeps the id; each field present in the patch replaces the item's, and the others stay |
| `DurableObject.UpdateItems` | worker/durableObject.ts:38-40 | same length and order; items with the id are patched and all other items are identical |
| `DurableObject.UpdateKeepsIds` | worker/durableObject.ts:38-40 | an update never changes the id at any position |
| `DurableObject.UpdateUnknownIdIsNoOp` | worker/durableObject.ts:38-40 | an id no item has leaves the list unchanged |
| `DurableObject.UpdateDemoItemStep` | worker/durableObject.ts:36-43 | patches the current (possibly seeded) list, stores exactly the result, and touches only `demo_items` |
| `DurableObject.RemoveItems` | worker/durableObject.ts:46 | an order-preserving subsequence without the id that keeps every other item; its length is the old length minus the matching items |
| `DurableObject.RemoveUnknownIdIsNoOp` | worker/durableObject.ts:46 | an id no item has leaves the list unchanged |
| `DurableObject.DeleteDemoItemStep` | worker/durableObject.ts:44-49 | filters the current list, stores exactly the result, and touches only `demo_items` |
| `DurableObject.UptimeParts` | worker/durableObject.ts:116-118 | hours < 24 and minutes < 60; hours and minutes are the whole hours and whole minutes of `now mod 86 400 000` |
| `DurableObject.UptimeRoundTrip` | worker/durableObject.ts:114-120 | the uptime string has the form `"<h>h <m>m"` with both numbers as numerals (non-empty, no leading zero), and parses back to exactly those hours and minutes |
| `DurableObject.InitialSystemInfo` | worker/durableObject.ts:63-68 | the first snapshot is `Production` / `1.0.0`, stamped now, with the computed uptime |
| `DurableObject.GetSystemInfoStep` | worker/durableObject.ts:50-71 | a stored snapshot gets only a fresh timestamp; an absent one is initialised. The result is stored and nothing else changes |
| `DurableObject.SystemInfoStableAcrossReads` | worker/durableObject.ts:50-71 | a second read changes only the timestamp |
| `DurableObject.MergeSystemInfo` | worker/durableObject.ts:74-78 | each field comes from the patch if present, else from the snapshot. The timestamp is always now, even if the patch has one |
| `DurableObject.SetSystemInfoStep` | worker/durableObject.ts:72-81 | merges over the read-through snapshot, stores exactly the value returned, and touches only `system_info` |
| `DurableObject.InitialUiPathStatus` | worker/durableObject.ts:95-100 | the first status is connected, with URL `https://cloud.uipath.com` and status `connected`, checked now |
| `DurableObject.GetUiPathStatusStep` | worker/durableObject.ts:82-103 | a stored status gets only a fresh `lastChecked`; an absent one is initialised. The result is stored and nothing else changes |
| `DurableObject.MergeUiPathStatus` | worker/durableObject.ts:106-110 | field-by-field merge, with `lastChecked` forced to now |
| `DurableObject.SetUiPathStatusStep` | worker/durableObject.ts:104-113 | merges over the read-through status, stores exactly the value returned, and touches only `uipath_status` |
| `DurableObject.DisconnectThenRead` | worker/durableObject.ts:82-113 | writing `{connected: false}` and then reading shows disconnected. The URL and status stay, and `lastChecked` is the read's time |
| `DurableObject.ConnectedAndStatusIndependent` | worker/durableObject.ts:104-113 | any combination of `connected` and `status` can be written; nothing ties them together |
| `DurableObject.Perform` | worker/durableObject.ts:5-113 | every actor call writes at most its own key and never clears a key. Every call except `getCounterValue` leaves its key written, and only the counter calls move the counter. Each call answers and stores exactly what its method does |
| `DurableObject.CounterTracksNetDelta` | worker/durableObject.ts:10-21 | after any series of calls, the counter is its old value plus the increments minus the decrements |
| `DurableObject.WrittenKeysStayWritten` | worker/durableObject.ts:22-113 | once a key is written it stays written through any series of calls, so each slot is initialised at most once |
| `DurableObject.GlobalDurableObject.constructor` | worker/durableObject.ts:5 | the actor starts over the storage it is given |
| `DurableObject.GlobalDurableObject.GetCounterValue` | worker/durableObject.ts:6-9 | implements `GetCounterValueStep` and modifies nothing |
| `DurableObject.GlobalDurableObject.Increment` | worker/durableObject.ts:10-15 | implements `IncrementStep`, with amount 1 by default; modifies only the counter field |
| `DurableObject.GlobalDurableObject.Decrement` | worker/durableObject.ts:16-21 | implements `DecrementStep`, with amount 1 by default; modifies only the counter field |
| `DurableObject.GlobalDurableObject.GetDemoItems` | worker/durableObject.ts:22-29 | implements `GetDemoItemsStep`; modifies only the list field |
| `DurableObject.GlobalDurableObject.AddDemoItem` | worker/durableObject.ts:30-35 | implements `AddDemoItemStep` by way of `GetDemoItems` |
| `DurableObject.GlobalDurableObject.UpdateDemoItem` | worker/durableObject.ts:36-43 | implements `UpdateDemoItemStep` by way of `GetDemoItems` |
| `DurableObject.GlobalDurableObject.DeleteDemoItem` | worker/durableObject.ts:44-49 | implements `DeleteDemoItemStep` by way of `GetDemoItems` |
| `DurableObject.GlobalDurableObject.GetSystemInfo` | worker/durableObject.ts:50-71 | implements `GetSystemInfoStep`; modifies only the system info field |
| `DurableObject.GlobalDurableObject.SetSystemInfo` | worker/durableObject.ts:72-81 | implements `SetSystemInfoStep` by way of `GetSystemInfo` |
| `DurableObject.GlobalDurableObject.GetUiPathStatus` | worker/durableObject.ts:82-103 | implements `GetUiPathStatusStep`; modifies only the status field |
| `DurableObject.GlobalDurableObject.SetUiPathStatus` | worker/durableObject.ts:104-113 | implements `SetUiPathStatusStep` by way of `GetUiPathStatus` |
| `UserRoutes.MatchSelectsExactly` | worker/userRoutes.ts:4-64 | a request selects a route exactly when it has that route's method and path, with `:id` one non-empty segment |
| `UserRoutes.PlanRoute` | worker/userRoutes.ts:4-64 | every actor call goes to instance `"global"`. GET `/api/system-info`, `/api/uipath-status`, `/api/demo` and `/api/counter` call `getSystemInfo`, `getUiPathStatus`, `getDemoItems` and `getCounterValue`. Increment uses amount 1, PUT and DELETE pass the path id (and PUT the body patch), and POST passes the body item. POST `/api/demo` without an item body and PUT `/api/demo/:id` without a patch body are rejected before any actor call. No route calls `decrement` or a setter, and only `/api/test` answers without the actor |
| `UserRoutes.Respond` | worker/userRoutes.ts:7-64 | success gives 200 with `data` exactly the actor's result and no error. A failure gives 500 with no data only on the two info routes, and escapes everywhere else |
| `UserRoutes.Handle` | worker/userRoutes.ts:4-64 | only unmatched requests go unrouted; a failed call changes nothing; only a caught failure answers `success: false`, with 500; a request that gets no answer (unmatched, rejected body, escaped failure) leaves the store unchanged, and a rejected body escapes as unhandled |
| `UserRoutes.RoutedCallSucceeds` | worker/userRoutes.ts:7-64 | a routed actor request answers `{success: true, data}` with the call's result and writes only the call's key |
| `UserRoutes.TestRouteIsConstant` | worker/userRoutes.ts:5 | `/api/test` always answers `{name: 'CF Workers Demo'}` and touches no storage |
| `UserRoutes.FailedCallOutcome` | worker/userRoutes.ts:7-64 | on a failed call the two info routes answer 500 with their fixed messages, and the demo and counter routes leave the error unhandled |
| `UserRoutes.IncrementRouteAddsOne` | worker/userRoutes.ts:40-44 | `POST /api/counter/increment` raises the counter by exactly one, answers the new value, and touches nothing else |
| `UserRoutes.ThreeIncrementsFromFresh` | worker/userRoutes.ts:40-44 | three increments on a fresh actor answer 1, 2 and 3 |
| `UserRoutes.CounterRouteAnswers` | worker/userRoutes.ts:35-39 | `GET /api/counter` answers the stored counter (or 0) and writes nothing |
| `UserRoutes.SystemInfoRouteAnswers` | worker/userRoutes.ts:7-16 | `GET /api/system-info` answers and stores what `getSystemInfo` returns |
| `UserRoutes.UiPathStatusRouteAnswers` | worker/userRoutes.ts:18-27 | `GET /api/uipath-status` answers and stores what `getUiPathStatus` returns |
| `UserRoutes.ListDemoAnswers` | worker/userRoutes.ts:29-33 | `GET /api/demo` answers the current (possibly seeded) list |
| `UserRoutes.AddRouteCallsAddDemoItem` | worker/userRoutes.ts:46-51 | `POST /api/demo` appends the body item and answers the new list |
| `UserRoutes.UpdateRouteCallsUpdateDemoItem` | worker/userRoutes.ts:52-58 | `PUT /api/demo/:id` patches by the path id with the body and answers the new list |
| `UserRoutes.DeleteRouteCallsDeleteDemoItem` | worker/userRoutes.ts:59-64 | `DELETE /api/demo/:id` deletes by the path id and answers the new list |
| `UserRoutes.LifecycleOnSteps` | worker/durableObject.ts:30-49 | add, patch and delete `x1`: the list ends with the widget, then with the patched widget, then holds no `x1` |
| `UserRoutes.DemoItemLifecycle` | worker/userRoutes.ts:29-64 | the same add → list → patch → list → delete → list sequence through the HTTP routes, from any starting storage |

## Left out

- Clock: time is an input. Within one call the model reads the clock once, so `setSystemInfo` and
  `setUiPathStatus` use one `now` for both their inner read and their own stamp. The inner stamp
  is overwritten before anything can observe it. Timestamps are opaque strings, so nothing is
  stated about their order.
- The contents of `MOCK_ITEMS`, from `shared/mock-data`: `shared/mock-data` is not part of this
  model, so the list is a parameter.
- Storage backend, platform serialisation and concurrency: each call is atomic on in-memory fields.
- Partial writes before a failure are not modelled: a failed actor call leaves the store as it
  was. For example, `addDemoItem` could have seeded the list before its own write failed.
- JavaScript numbers: the counter and `DemoItem.value` are unbounded integers. Fractions, `NaN`
  and precision loss above 2^53 are not modelled.
- Patches whose property is present with value `undefined`: a spread would copy the `undefined`.
  A patch field here is either absent or a value, so, for example, `orchestratorUrl` cannot be
  cleared through `setUiPathStatus`.
- Request bodies: `c.req.json()` is cast with `as` and never validated, so the original passes
  any JSON object on. The model expects an item for `POST /api/demo` and a patch for
  `PUT /api/demo/:id`, and a body of the other shape ends as `Unhandled`. In the original,
  `PUT /api/demo/x1` with a full item as body spreads the body's `id` into every matching item
  (worker/durableObject.ts:39) and answers 200. `POST /api/demo` with a patch as body appends
  the partial object (worker/durableObject.ts:32) and answers 200. Both requests answer
  `Unhandled` in the model.
- Hono routing internals: HEAD falling back to GET, percent-decoding of `:id`, trailing-slash
  handling, the 404 for unmatched paths (`NotMatched`) and the default handler for escaped
  errors (`Unhandled`). Logging through `console.error` is also left out.
- `CalculateUptime`: it has no contract of its own. Its format and bounds are stated by
  `UptimeParts` and `UptimeRoundTrip`.
- The page (`src/pages/HomePage.tsx`) and the error boundary
  (`src/components/RouteErrorBoundary.tsx`): these are presentation and I/O.
