# Order lifecycle of the commande service, in Dafny

This project models the core of an order-management HTTP service. The service
creates orders (`commandes`) and moves each one through a fixed status
workflow, `RECEIVED < PAID < PREPARING < SENT`. Every change is written to three
backends in a fixed order:

1. a relational store, which holds the `orders` table and the `order_history` table;
2. a status cache, a Redis key `commande:{id}:status`;
3. a change notifier, a RabbitMQ queue of `{clientId, commandeId, status}` messages.

Failures from these backends are sorted into the `CommandeError` family. The HTTP
boundary validates each request before it reaches the service, and turns the
service's result into a status code with a body.

Modules, one per source component:

- `Wrappers` (wrappers.dfy): the `Option`, `Result` and `Outcome` datatypes.
- `Text` (text.dfy): integers written as decimal strings, the way a template
  literal writes `${n}`, and the inverse parse. Also the substring test behind
  `String.includes`. These give the round trips that the key and message
  properties rest on.
- `Models` (models.dfy): the `CommandeStatus` enum with its string values, and
  the `Commande` record.
- `Errors` (errors.dfy): the four `CommandeError` kinds and their messages. Also
  `Thrown`, which stands for any thrown value: one of the service's own errors,
  or a backend's `Error` object or non-`Error` value.
- `Workflow` (workflow.dfy): `statusWorkflow`, the array `indexOf`, and
  `processStatusWorkflow`.
- `Store` (store.dfy): class `BddCommandeDao`. It has fields `orders`, `history`
  (one status sequence per order), `nextId` (the AUTO_INCREMENT counter) and
  `held` (connections taken from the pool). Each operation is written as the
  source writes it: acquire, begin, statements, commit, rollback, release. A
  rollback restores the snapshot taken at `begin`.
- `Cache` (cache.dfy): class `RedisCommandeDao`, holding a `map<string, string>`.
- `Notifier` (notifier.dfy): class `RabbitmqCommandeDao`. It holds the set of
  queues asserted durable and the sequence of messages sent.
- `Service` (service.dfy): class `CommandeService`. It owns the three DAOs and
  runs `createCommande` and `updateStatus` with their `try`/`catch` wrapping.
- `Controller` (controller.dfy): the validation chains, `handleError`, and class
  `CommandeController`. A response is a `(code, body)` value.
- `ContentType` (contenttype.dfy): the `requireJsonContentType` decision.
- `Scenarios` (scenarios.dfy): the request sequences of the integration tests.
  Each one runs against a fresh service and is proved from the contracts alone.

Environment inputs are explicit parameters:

- Backend failures are parameters of type `Option<…Fault>`. Each one names the
  step that throws (pool acquisition, `beginTransaction`, one of the statements,
  `commit`; channel, `assertQueue`, `sendToQueue`) and the value thrown.
- The clock `Date.now()` is the parameter `now`.
- Instants are integer milliseconds.
- What `new Date(date)` and `parseInt(id, 10)` produce comes in as an `Option`
  inside the request value.

Where the code and its written design disagree, the model follows the code:

- A transition to the current status is accepted. `processStatusWorkflow`
  rejects only `current > new` (service/src/services/commande.service.ts:83). So
  setting the same status again succeeds and appends another history row.
  `Workflow.SameStatusAllowed` and `Scenarios.SameStatusTwice` state this.
- In `createCommande`, one `try` covers the store, cache and queue calls. A cache
  or queue `Error` is therefore wrapped as `DaoError("la création de la
  commande")`, just like a store error. The store write that already committed is
  kept.
- The unit test at service/tests/unit/services/commande.service.test.ts:78-80
  expects the raw `'Database error'` message. The code wraps that error, so the
  model gives the wrapped message `"Erreur lors de la création de la commande"`.
- The service imports `BddCommandeDao` from `dao/bddCommande`, but that file
  exports only `BddCommandeService.createCommande`.
  - `Store.BddCommandeDao` takes `findById` and `updateStatus` from
    service/src/dao/commande/bdd.ts.
  - `Store.BddCommandeDao.CreateCommande` models both copies of the create.
    service/src/dao/bddCommande.ts:13-57 and service/src/dao/commande/bdd.ts:15-59
    run the same statements.
- The Redis and RabbitMQ DAOs each exist twice, and the copies are identical.
  `Cache.RedisCommandeDao` stands for both service/src/dao/redisCommande.ts and
  service/src/dao/commande/redis.ts. `Notifier.RabbitmqCommandeDao` stands for
  both service/src/dao/rabbitmqCommande.ts and service/src/dao/commande/rabbitmq.ts.
- `order_history.order_id` references `orders`. The test fixtures turn foreign-key
  checks off before truncating the tables
  (service/tests/integration/support/fixtures.ts:10). So the store's
  `updateStatus` on an absent id updates no row. Its history insert then fails
  with `ForeignKeyViolation`, and the transaction is rolled back.

## Model

| member | source | states |
|---|---|---|
| `Text.ParseIntOfIntToString` | service/src/dao/redisCommande.ts:7 | an id written into a key or message by a template literal reads back as the same integer |
| `Text.IntToStringInjective` | service/src/errors/commande.errors.ts:10 | distinct ids are written as distinct strings |
| `Text.IncludesIffOccurs` | service/src/middlewares/contentType.middleware.ts:16 | `includes(sub)` holds exactly when `sub` occurs at some index of the header |
| `Models.ParseStatus` | service/src/models/commande.ts:5-10 | a string is accepted as a status exactly when it is the string value of one of the four statuses, and then it names that status |
| `Models.ParseStatusName` | service/src/models/commande.ts:6-9 | status to string to status is the identity |
| `Errors.NotFoundIdOfMessage` | service/src/errors/commande.errors.ts:8-13 | the not-found message is `"Commande " + id + " non trouvée"`, and the id can be read back from it |
| `Errors.MessageIdentifiesError` | service/src/errors/commande.errors.ts:1-37 | two errors with the same message are the same error, except that a DaoError's message names its operation and not its cause |
| `Errors.NameIdentifiesKind` | service/src/errors/commande.errors.ts:1-37 | each of the four kinds sets its own `name` |
| `Workflow.IndexOf` | service/src/services/commande.service.ts:80-81 | `indexOf` gives the first position of the status, or -1 exactly when the status is absent |
| `Workflow.IndexOfIsRank` | service/src/services/commande.service.ts:19-24 | every status sits in `statusWorkflow` at its rank RECEIVED=0, PAID=1, PREPARING=2, SENT=3 |
| `Workflow.ProcessStatusWorkflow` | service/src/services/commande.service.ts:79-86 | the transition is rejected with StatusInvalid iff the new status ranks before the current one; equal and forward moves, skips included, pass |
| `Workflow.SameStatusAllowed` | service/src/services/commande.service.ts:83 | re-asserting the current status is accepted |
| `Workflow.AllowedIsTotalOrder` | service/src/services/commande.service.ts:19-24 | accepted transitions are transitive, antisymmetric and total |
| `Workflow.InitialAndTerminal` | service/src/services/commande.service.ts:19-24 | from RECEIVED every status is accepted; from SENT only SENT |
| `Store.BddCommandeDao.CreateCommande` | service/src/dao/commande/bdd.ts:15-59 | success iff no step fails; then one order row `(clientId, RECEIVED, creationDate)` under the fresh AUTO_INCREMENT id and one history entry `[RECEIVED]`, and the order is returned; on failure no row remains and the error is rethrown unchanged; the held-connection count returns to its value before the call; every order's status stays the last history entry |
| `Store.BddCommandeDao.FindById` | service/src/dao/commande/bdd.ts:61-89 | returns the stored `(id, clientId, status, creationDate)`, or none when no row exists; a failure of acquisition or SELECT is rethrown; no row changes and the connection is released |
| `Store.BddCommandeDao.UpdateStatus` | service/src/dao/commande/bdd.ts:91-121 | success iff no step fails and the order exists; then only that order's status changes and exactly one entry with the new status is appended to its history; on failure, the absent-id foreign-key failure included, nothing persists and the error is rethrown; the connection is released |
| `Cache.KeyIdOfKey` | service/src/dao/redisCommande.ts:6-8 | the key is `"commande:" + id + ":status"`, and the id can be read back from it |
| `Cache.KeyInjective` | service/src/dao/commande/redis.ts:8-10 | distinct ids give distinct keys |
| `Cache.LookupStored` | service/src/dao/redisCommande.ts:10-45 | a get after a set of the same id returns the status string just set, which parses back to the status |
| `Cache.LookupStoredOther` | service/src/dao/commande/redis.ts:12-19 | a set for one id leaves every other id's entry unchanged |
| `Cache.RedisCommandeDao.SetStatus` | service/src/dao/redisCommande.ts:10-26 | overwrites exactly the order's key with the status string; a client error is rethrown unchanged and nothing is written |
| `Cache.RedisCommandeDao.GetStatus` | service/src/dao/commande/redis.ts:30-47 | returns the value under the order's key, or none when absent; a client error is rethrown unchanged |
| `Notifier.RabbitmqCommandeDao.PublishStatusChange` | service/src/dao/rabbitmqCommande.ts:14-49 | on success the queue is asserted durable and exactly one persistent message `{clientId, commandeId, status}` from the arguments is appended to the configured queue; on a client error nothing is sent and the error is rethrown; every message ever sent went to that queue, persistent, after its durable assert |
| `Service.CreateFailure` | service/src/services/commande.service.ts:62-70 | every `Error` thrown during create becomes `DaoError("la création de la commande")` with the original as cause; any other value is rethrown as is |
| `Service.UpdateFailure` | service/src/services/commande.service.ts:117-126 | NotFound and StatusInvalid propagate unchanged; every other `Error` becomes `DaoError("la mise à jour du statut")` with the original as cause; a non-`Error` value is rethrown as is |
| `Service.CommandeService.constructor` | service/src/services/commande.service.ts:31-35 | the service builds three fresh DAOs over an empty store, cache and queue |
| `Service.CommandeService.CreateCommande` | service/src/services/commande.service.ts:37-71 | a date after `now` throws CreationDateInFuture, unwrapped, and touches no backend; a date equal to `now` is accepted; otherwise it writes the store, then the cache with `(id, RECEIVED)`, then the queue with `(id, clientId, RECEIVED)`, and returns the store's order unchanged; the first failure stops the sequence, is wrapped by `CreateFailure`, and earlier writes stay |
| `Service.CommandeService.UpdateStatus` | service/src/services/commande.service.ts:88-127 | an absent id throws NotFound(id) and a backward transition throws StatusInvalid, both with no write; otherwise it writes the store, then the cache with `(id, status)`, then publishes `(loaded.id, loaded.clientId, status)`, and returns the loaded order with only `status` replaced; the first failure stops the sequence and is classified by `UpdateFailure` |
| `Controller.ValidateCreate` | service/src/controllers/commande.controller.ts:42-66 | checks run in order: missing clientId, clientId ≤ 0, missing date, unparseable date; the first that fails gives 400 with its own message; only a request passing all four reaches the service, with its clientId and instant |
| `Controller.ValidateUpdate` | service/src/controllers/commande.controller.ts:95-119 | a missing, unparseable or non-positive id gives 400 "L'identifiant de commande est invalide" whatever the status; then a missing status gives 400 "Aucun statut n'est fourni" and a status outside the four values 400 "Le statut fourni est invalide"; otherwise the parsed id and the named status |
| `Controller.HandleError` | service/src/controllers/commande.controller.ts:130-160 | 400 exactly for CreationDateInFuture and StatusInvalid, 404 exactly for NotFound, each with `error.message`; DaoError gives 500 with a fixed message independent of the cause; anything else gives 500 "Une erreur inattendue est survenue" |
| `Controller.BackendFailureIsHidden` | service/src/controllers/commande.controller.ts:149-159 | whatever a backend throws during create or update, the client gets 500 with one of the two fixed messages and never the cause |
| `Controller.CommandeController.CreateCommande` | service/src/controllers/commande.controller.ts:36-83 | a refused request answers its 400 and changes nothing; a future date answers 400 "La date de création est dans le futur" and changes nothing; otherwise 201 with body `{id}` of the new order when all backends succeed and 500 when one fails; the store row is written whenever the store succeeds |
| `Controller.CommandeController.UpdateStatus` | service/src/controllers/commande.controller.ts:85-128 | a refused request answers its 400; an unknown id answers 404 naming it; a backward transition answers 400; all three write nothing; otherwise 204 with no body when all backends succeed and 500 when one fails |
| `ContentType.RequireJsonContentType` | service/src/middlewares/contentType.middleware.ts:10-31 | methods other than POST, PUT and PATCH go to `next`; for those three, a missing header, or one in which `application/json` occurs nowhere, gets the single 415 answer, and any other header goes to `next`; exactly one of the two happens |
| `ContentType.CharsetSuffixAccepted` | service/src/middlewares/contentType.middleware.ts:16 | `application/json` followed by parameters such as a charset is accepted |
| `Scenarios.CreateThenRead` | service/tests/integration/commande.integration.test.ts:25-57 | after a create, the order reads back as `(1, clientId, RECEIVED, creationDate)`, the history is `[RECEIVED]`, the cache holds "RECEIVED", and the queue holds one message `{clientId, 1, RECEIVED}` |
| `Scenarios.SuccessiveUpdates` | service/tests/integration/commande.integration.test.ts:193-216 | updates PAID, PREPARING, SENT on a new order give history `[RECEIVED, PAID, PREPARING, SENT]` |
| `Scenarios.BackwardTransition` | service/tests/integration/commande.integration.test.ts:218-233 | PAID to RECEIVED answers 400 "Le status voulu pour la commande est invalide" and adds no history entry |
| `Scenarios.SameStatusTwice` | service/src/services/commande.service.ts:83 | setting PAID twice answers 204 both times and records PAID twice |
| `Scenarios.UnknownOrder` | service/tests/integration/commande.integration.test.ts:237-244 | updating id 99999 on an empty store answers 404 "Commande 99999 non trouvée" |
| `Scenarios.FutureCreationDate` | service/tests/integration/commande.integration.test.ts:129-145 | a date one day after `now` answers 400 "La date de création est dans le futur" and stores no order |

## Left out

- Connection setup, lazy singleton clients, environment parsing and reconnect handlers are not modelled (service/src/config/). They are I/O plumbing. The store, cache and queue are plain state owned by the DAO objects.
- The queue name is a constructor parameter of `RabbitmqCommandeDao`. `DefaultQueueName` is the configured default. How the environment variable overrides it is not modelled.
- Logging is not modelled. Every `logger.*` call is a no-op.
- The version endpoint, the router, the Express application, `helmet`, `cors` and process start-up are not part of this model.
- `async`/`await`, the blocking of the connection pool, and races between concurrent updates of one order are not modelled. Each request is one sequential call.
- `new Date(...)`, `parseInt`, `Date.now()`, `JSON.stringify` and `Buffer` are not modelled. Their results arrive as values: a `DateField`, an `IdParam` carrying `Option<int>`, the `now` parameter, and a message record instead of bytes.
- A `clientId` sent as a JSON string, a boolean or a fraction is not modelled. JavaScript's `clientId <= 0` lets such values through, but the model's `clientId` is `Option<int>`. Likewise `status` is an `Option<string>`, and a non-string JSON value is not modelled.
- The `change_date` column and the ordering of history rows by it are not modelled. History order is insertion order. `TRUNCATE` is not modelled.
- A `rollback()` that itself throws is not modelled. Neither is a failing `release()`.
- The boolean that `sendToQueue` returns when the channel's buffer is full is not modelled. The source ignores it too.
- Ids are unbounded integers. The source types them as `bigint` and casts them `as number`. A `bigint` would make `JSON.stringify` throw, but that never happens here, because the values are plain numbers at run time.
- A status string read from the database or the cache is cast to `CommandeStatus` without a check. The model's `orders` table holds only the four statuses, since only the modelled operations write it. `GetStatus` returns the raw string.
- The base class `CommandeError` is never instantiated on its own, so it is not a variant.
- Branded id types are type synonyms of `int`.
- `Controller.CommandeController.CreateCommande`: for a backend failure it states only the code 500, not which of the two fixed messages. `Controller.HandleError` and `Service.CreateFailure` together determine the message.
- `Controller.CommandeController.UpdateStatus`: for a backend failure it states only the code 500, not which of the two fixed messages, and not the cache or queue contents. `Service.CommandeService.UpdateStatus` states those.
