# Driver ping service — connection manager, collection provisioning, ping validator

This project models the three parts of the write service of drivers-tracking
(`apps/write-express-app`) that make decisions, and proves what they promise.

- **Mongo** (`mongo_connection.dfy`) models the `MongoConnection` class. It
  holds one `MongoClient`, the `isConnected` flag and `connectionPromise`, the
  promise of the physical `client.connect()` attempt in flight.
  - The behaviour is stated as a transition function `Next` over an abstract
    state `Conn`, driven by six events: a `connect()` call, the attempt's
    then and catch callbacks, the driver's `close` and `error` events, and
    `disconnect()`.
  - `Respond` gives what each caller observes.
  - `ConnectionPromise` stands for one physical attempt (the object held in
    `connectionPromise`). Each `async` call hands its caller a new promise,
    which adopts the pending attempt and settles with it.
  - Ghost counters record the physical attempts issued, the attempts settled,
    the callers holding the pending promise and the listener pairs
    registered.
  - The class `MongoConnection` has the source's fields. Each method is
    proved to move its abstract state exactly as `Next` says.
  - The key property is single flight: while an attempt is pending, nothing
    short of its settlement issues a second `client.connect()`. Every
    `connect()` in that window receives the same attempt.
- **PingCollection** (`ping_collection.dfy`) models `initializePingCollection`
  and `getPingCollection`.
  - The database is a map from collection name to configuration.
  - The module-level `pingCollection` variable is an optional handle.
  - `Initialize` is the specification of one run. The class
    `PingCollections` holds the store and the cache, and its method is proved
    equal to that specification.
- **PingSchema** (`ping_schema.dfy`) models the zod schema `pingSchema`.
  - It is kept as data: one list of checks per field, evaluated by an
    interpreter that reports one issue per failing check it reaches.
  - The checks behave as in zod 4. `ping.schema.ts` imports `z` from the
    root `"zod"` module, while the routes and the middleware import the
    older API's `AnyZodObject` from `"zod/v3"` and need a cast to pass the
    schema to it (`apps/write-express-app/src/routes/drivers.routes.ts:1, 17`).
    So `int()` accepts only safe integers (magnitude at most 2^53 − 1), and
    an `int()` that fails on a non-integer stops the field's later checks.
  - `Accepts` (no issues) is proved equal to `WithinRanges`, where the ranges
    are written out directly. Lemmas cover each boundary.

The driver calls (`client.connect()`, `client.close()`, `listCollections`,
`createCollection`, `db.collection`) are foreign code. Their outcomes are
parameters or events of the model:
- `None`, or an event that resolves, means success.
- `Some(error)`, or an event that rejects, means the error the call throws.

Three facts about the code shape the model:

- The code has no ingestion write path. `handleDriverPing` only logs the
  body and replies 201, and the store import is commented out
  (`apps/write-express-app/src/controllers/drivers.controller.ts:3-11`).
  No write path and no timestamp conversion is modelled.
- Every successful `initializePingCollection` assigns the cache again,
  always to a handle to the same collection (`db.collection` builds a new
  handle object each time; the model compares handles by database and
  collection name). `InitializeIdempotent` shows that a second run leaves
  the same store and a handle to the same collection in the cache.
- The client field is always set, so `disconnect()` always calls `close()`.
  The model has no branch there.

## Model

| member | source | states |
|---|---|---|
| `Mongo.Next` | apps/write-express-app/src/lib/mongo/index.ts:24-76 | every event preserves the invariant (never connected and pending at once, attempts = settled + pending, waiters exist exactly while pending, connected only after a success registered listeners); the attempt counter grows by one exactly for a `connect()` call in the idle state and stays the same otherwise |
| `Mongo.Inv` | apps/write-express-app/src/lib/mongo/index.ts:6-7 | a state keeping the invariant has no more listener pairs than physical attempts, and a connected one has issued at least one attempt |
| `Mongo.Respond` | apps/write-express-app/src/lib/mongo/index.ts:24-61 | `connect()` returns the client at once exactly when connected; otherwise the caller gets the attempt in flight after the call, starting it exactly when none was in flight; a settlement delivers the client (resolve) or the error (reject) to every holder of the promise, at least one |
| `Mongo.RunKeepsInv` | apps/write-express-app/src/lib/mongo/index.ts:25-59 | the invariant holds after any feasible sequence of events |
| `Mongo.Reachable` | apps/write-express-app/src/lib/mongo/index.ts:6-7 | from the constructed state, no sequence of events reaches a state where `isConnected` is true and `connectionPromise` is non-null |
| `Mongo.SingleFlight` | apps/write-express-app/src/lib/mongo/index.ts:29-32 | while an attempt is pending, any events except its settlement leave the attempt count unchanged and the attempt pending, and every `connect()` among them gets that same attempt |
| `Mongo.ConcurrentFirstCalls` | apps/write-express-app/src/lib/mongo/index.ts:24-61 | n ≥ 1 `connect()` calls on an idle manager, then the settlement: exactly one physical attempt, the first call starts it, the others join it, and all n callers receive the client (on resolve) or the error (on reject); the manager ends connected exactly when the attempt resolved |
| `Mongo.JoinsCount` | apps/write-express-app/src/lib/mongo/index.ts:29-32 | n `connect()` calls while an attempt is pending only add n holders of the pending promise |
| `Mongo.ConnectWhenConnected` | apps/write-express-app/src/lib/mongo/index.ts:25-27 | when connected, `connect()` returns the client and changes nothing |
| `Mongo.AttemptSuccess` | apps/write-express-app/src/lib/mongo/index.ts:36-39 | success sets connected, clears the promise and delivers the client to every holder; the next `connect()` starts nothing |
| `Mongo.AttemptFailure` | apps/write-express-app/src/lib/mongo/index.ts:54-59 | failure clears the promise, leaves the manager disconnected and delivers the error to every holder; the next `connect()` issues a fresh attempt |
| `Mongo.ConnectionLoss` | apps/write-express-app/src/lib/mongo/index.ts:42-50 | a `close` or `error` event on a connected manager drops the connection, so the next `connect()` issues a new attempt |
| `Mongo.DisconnectEffect` | apps/write-express-app/src/lib/mongo/index.ts:71-76 | a completed `disconnect()` leaves the manager disconnected, is idempotent and touches nothing else; a rejected `close()` changes nothing |
| `Mongo.DisconnectDuringAttempt` | apps/write-express-app/src/lib/mongo/index.ts:34-39 | `disconnect()` during an attempt cancels nothing: the attempt stays pending, new calls join it, and its success connects the manager again |
| `Mongo.MongoConnection.constructor` | apps/write-express-app/src/lib/mongo/index.ts:9-22 | builds the one client from the URI and pool sizes, in the initial state (not connected, no promise, no attempts) |
| `Mongo.MongoConnection.Connect` | apps/write-express-app/src/lib/mongo/index.ts:24-62 | follows `Next`; when connected, the caller's promise settles with the client at once; when an attempt is pending, with that same attempt (the object in `connectionPromise` is unchanged); otherwise with a fresh attempt that becomes `connectionPromise` |
| `Mongo.MongoConnection.AttemptResolves` | apps/write-express-app/src/lib/mongo/index.ts:36-53 | follows `Next`; connected, promise cleared, the client delivered to all holders |
| `Mongo.MongoConnection.AttemptRejects` | apps/write-express-app/src/lib/mongo/index.ts:54-59 | follows `Next`; not connected, promise cleared, the same error rethrown to all holders |
| `Mongo.MongoConnection.CloseEvent` | apps/write-express-app/src/lib/mongo/index.ts:42-45 | follows `Next`; not connected, promise untouched |
| `Mongo.MongoConnection.ErrorEvent` | apps/write-express-app/src/lib/mongo/index.ts:47-50 | follows `Next`; not connected, promise untouched |
| `Mongo.MongoConnection.GetClient` | apps/write-express-app/src/lib/mongo/index.ts:64-69 | follows `Next` for a `connect()` call; when connected, yields the one client without connecting; otherwise waits on the pending or newly started attempt, after which it yields that same client |
| `Mongo.MongoConnection.Disconnect` | apps/write-express-app/src/lib/mongo/index.ts:71-76 | follows `Next`; after a successful `close()` not connected; a `close()` error is rethrown with nothing changed; the promise is never touched |
| `PingCollection.PingsConfig` | apps/write-express-app/src/lib/mongo/collections/ping.collection.ts:28-41 | the created collection is a time series on `timestamp`, grouped by `driverId` at the granularity of seconds, expiring after retention days × 86400 seconds |
| `PingCollection.ListCollections` | apps/write-express-app/src/lib/mongo/collections/ping.collection.ts:21-23 | the listing filtered by name is empty exactly when no collection of that name exists, and otherwise holds only that collection |
| `PingCollection.Initialize` | apps/write-express-app/src/lib/mongo/collections/ping.collection.ts:16-57 | a failing getClient, listing or creation (creation only when the listing is empty) makes the run throw that call's own error, in that order, leaving the store and the cache as they were; when `pings` exists and the first two calls succeed, the run succeeds; a success caches the handle of `pings`, which then exists; an existing `pings` is never altered; a created one gets exactly `PingsConfig`; no other collection is touched |
| `PingCollection.StoreChangesOnlyByCreation` | apps/write-express-app/src/lib/mongo/collections/ping.collection.ts:21-41 | the store changes exactly when getClient and the listing succeed, the listing is empty, and createCollection succeeds |
| `PingCollection.InitializeIdempotent` | apps/write-express-app/src/lib/mongo/collections/ping.collection.ts:25-50 | after one successful run, a second run (succeeding or failing) leaves the same store and a cached handle to the same collection (equal database and collection name) |
| `PingCollection.PingCollections.constructor` | apps/write-express-app/src/lib/mongo/collections/ping.collection.ts:14 | the cache starts unset over a given store |
| `PingCollection.PingCollections.InitializePingCollection` | apps/write-express-app/src/lib/mongo/collections/ping.collection.ts:16-57 | the new store, the new cache and the thrown error are exactly what `Initialize` gives for the old store and cache |
| `PingCollection.PingCollections.GetPingCollection` | apps/write-express-app/src/lib/mongo/collections/ping.collection.ts:63-70 | fails with `NotInitialized` exactly when the cache is unset, and otherwise returns the cached handle |
| `PingSchema.StringIssues` | apps/write-express-app/src/schemas/ping.schema.ts:4 | every issue names the field and one of its checks, and a check is reported exactly when it fails |
| `PingSchema.NumberIssues` | apps/write-express-app/src/schemas/ping.schema.ts:5-7 | only failing checks of the field are reported, at most one issue per check; when no check stops the later ones, a check is reported exactly when it fails |
| `PingSchema.NumberIssuesStop` | apps/write-express-app/src/schemas/ping.schema.ts:7 | an `int()` failing on a non-integer ends the field's issues: those of the checks before it, then its own, none after |
| `PingSchema.RangeDetails` | apps/write-express-app/src/schemas/ping.schema.ts:5-6 | for a field between two inclusive bounds, each bound is reported exactly when the value lies beyond it |
| `PingSchema.TimestampDetails` | apps/write-express-app/src/schemas/ping.schema.ts:7 | `int()` is reported exactly when the timestamp is no safe integer, and `positive()` exactly when it is an integer that is not positive |
| `PingSchema.Issues` | apps/write-express-app/src/schemas/ping.schema.ts:3-8 | the error details hold at most seven issues, no issue occurs twice, and every issue names a check declared for its own field; so each declared check is reported at most once |
| `PingSchema.StringIssuesDistinct` | apps/write-express-app/src/schemas/ping.schema.ts:4 | a string field whose checks are all different reports each failing check once |
| `PingSchema.NumberIssuesDistinct` | apps/write-express-app/src/schemas/ping.schema.ts:5-7 | a number field whose checks are all different reports each failing check once |
| `PingSchema.NumberIssuesEmpty` | apps/write-express-app/src/schemas/ping.schema.ts:5-7 | a number field has no issues exactly when all its checks hold |
| `PingSchema.Accepts` | apps/write-express-app/src/schemas/ping.schema.ts:3-8 | `pingSchema` accepts a ping exactly when driverId has at least one character, -90 ≤ latitude ≤ 90, -180 ≤ longitude ≤ 180 and the timestamp is a positive integer no larger than 2^53 − 1 |
| `PingSchema.IssueDetails` | apps/write-express-app/src/schemas/ping.schema.ts:3-8 | each check is reported against its own field exactly when it fails, except that `positive()` is not reported for a timestamp that is no integer at all |
| `PingSchema.DriverIdBoundary` | apps/write-express-app/src/schemas/ping.schema.ts:4 | the empty driverId is rejected; any non-empty one is accepted when the other fields are |
| `PingSchema.LatitudeBoundary` | apps/write-express-app/src/schemas/ping.schema.ts:5 | -90 and 90 are accepted; anything beyond either bound is rejected |
| `PingSchema.LongitudeBoundary` | apps/write-express-app/src/schemas/ping.schema.ts:6 | -180 and 180 are accepted; anything beyond either bound is rejected |
| `PingSchema.TimestampRejected` | apps/write-express-app/src/schemas/ping.schema.ts:7 | zero, negative integers and non-integers are rejected as timestamps |
| `PingSchema.TimestampRange` | apps/write-express-app/src/schemas/ping.schema.ts:7 | an integer timestamp is accepted exactly when it lies between 1 and 2^53 − 1 |
| `PingSchema.ExamplePings` | apps/write-express-app/src/schemas/ping.schema.ts:3-8 | `{d1, 10, 20, 1700000000}` is accepted; with latitude 91 the upper latitude bound is the one issue reported |
| `PingSchema.ExampleTimestamps` | apps/write-express-app/src/schemas/ping.schema.ts:7 | a timestamp of −1.5 gets the `int()` issue alone (`positive()` is skipped), and 2^53 gets the `int()` issue alone |

## Left out

- True asynchrony. Each promise settlement and driver event is one discrete
  event, applied one at a time. The JavaScript event loop is not modelled.
  No two state changes happen at once in the source either.
- Listener accumulation. Each successful
  connect registers one more close/error listener pair. The model counts the
  pairs but does not run each listener separately. All of them set the same
  flag to false.
- The constant client options: `maxIdleTimeMS`, the timeouts and the write
  concern (`apps/write-express-app/src/lib/mongo/index.ts:13-19`). They are
  library configuration with no logic. The URI and pool sizes are kept as
  given values.
- The MongoDB driver. Its calls are outcomes given to the model. The model
  takes `createCollection` to be all-or-nothing, so a failed creation leaves
  the store unchanged.
- `PingCollections.InitializePingCollection`: the `await` of `getClient()` is
  given as its outcome. The model does not call into a `MongoConnection`
  object.
- Log output (`console.log`, `console.error`).
- The contents of the handle `db.collection` returns. The handle is a
  reference only: database name and collection name.
- `PingSchema`: floating point. Numbers are mathematical reals, so NaN,
  infinities and rounding are out. So are zod's JSON type checks, its
  handling of unknown keys and the wording and codes of its issues. An
  integer outside the safe range and a non-integer both give the `int()`
  issue, though zod gives them different codes. A string's length is
  counted in characters.
- The zod 3 checks. No source file pins the zod version, and the model
  follows zod 4. Under zod 3, `int()` is `Number.isInteger` and every check
  runs. The four lines below name what that changes, member by member.
- PingSchema.Accepts: follows zod 4's safe-integer bound on the timestamp. Under zod 3 every positive integer would be accepted.
- PingSchema.NumberIssues: follows zod 4, where a failed `int()` on a non-integer stops the later checks. Under zod 3 every failing check would be reported.
- PingSchema.IssueDetails: follows zod 4. Under zod 3 a negative non-integer timestamp would also get the `positive()` issue, and a large integer would not get the `int()` issue.
- PingSchema.TimestampRange: follows zod 4. Under zod 3 the range would have no upper end.
- The error body the middleware sends
  (`apps/write-express-app/src/middleware/validate.middleware.ts:14-17`).
  The model gives the issues `safeParse` produces. It does not say what the
  middleware's `error.errors` holds: that property belongs to the zod 3 error
  type, and for a zod 4 error it may be missing.
- Environment loading (`apps/write-express-app/src/lib/env.ts`). The
  retention days, database name, URI and pool sizes are parameters.
- Startup sequencing and process control (`apps/write-express-app/src/server.ts`).
- The Express wiring: app, routes, validation and error middleware,
  controller. Also out are the unused second client in
  `apps/write-express-app/src/lib/mongo-client.ts` and the hello-world
  server in `apps/write-express-app/src/index.ts`.
