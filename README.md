# GrubDash ordering store, modelled in Dafny

This project models the two Express controllers of a small restaurant-ordering
backend: `src/orders/orders.controller.js` and `src/dishes/dishes.controller.js`.
Each controller keeps an in-memory collection (`orders`, `dishes`) and exports,
per route, an ordered list of middleware steps. Every step either lets the
request continue or aborts it with `{status, message}`; the first abort decides
the response, and only the last, terminal step changes the collection.

The model has these parts:

- `Js` (`js.dfy`): the JSON values a body's `data` object can hold, property
  lookup (a missing key reads as `undefined`), and JavaScript truthiness.
- `Collection` (`collection.dfy`): `find` by id (first match), the last match
  that `destroy`'s `forEach` leaves in `delIndex`, and `splice(start, 1)`.
- `Pipeline` (`pipeline.dfy`): `Failure` and `Response`, the runner
  `FirstFailure` (Express calling each middleware of an exported list in turn
  until one passes an error to `next`), and generic lemmas about it (all-pass,
  first failure wins, concatenation of chains).
- `Orders` (`orders.dfy`) and `Dishes` (`dishes.dfy`): the validation steps,
  the exported pipelines as constant step lists in source order (each step's
  verdict is `CheckStep`: in `Orders` it is `bodyDataHas` … `statusIsPending`,
  src/orders/orders.controller.js:51-214; in `Dishes` it is `bodyDataHas` …
  `dishExists`, src/dishes/dishes.controller.js:41-101), the terminal
  handlers as outcome functions `(response, new collection)`, and the stores
  `OrderStore` / `DishStore`. A store is a class with a `seq` field. `List`
  answers with the field. `Read`, `Create`, `Update` and `Delete` run the steps
  with a loop; `Read` is proved equal to its outcome function, and `Create`,
  `Update` and `Delete` then mutate the field (append, overwrite one record,
  or splice), are proved equal to their outcome functions, and keep the ids
  unique. The three line-item quantity checks are the source's
  `for` loops, which fill `badIndexes` and `totalOrdered`.
- `OrderProperties` and `DishProperties`: what each pipeline accepts, which
  failure it reports in which order, and how each handler changes the collection.

Behaviour reproduced as the code has it, including where a reader might
expect otherwise:

- The presence check is truthiness, so a dish `price` of `0` is rejected as
  "Must include a price" (`DishProperties.ZeroPriceIsMissing`). Every price
  that create or update writes is therefore above 0; seeded dishes are not
  checked.
- Order `create` copies `status` as given, even when absent; it is not
  defaulted to `"pending"`.
- `statusNotDelivered` rejects only an incoming status equal to `"invalid"`.
  The stored status plays no part in `update`, so a delivered order can still
  be changed (`OrderProperties.UpdateIgnoresStoredStatus`).
- Dish `update` sets the id to `id ? id : nextId()`. A body without an id gives
  the dish a fresh id, after which the route id names no dish
  (`DishProperties.UpdateWithoutIdLosesRouteId`). Order `update` keeps the
  route id instead.
- `idsMatch`, `bodyIdMatchesRouteParam` and `dishExists` call `next` twice on
  one path. The model takes the first signal: a mismatch aborts with 400, and a
  found dish continues.

The id generator `nextId` is not part of this model. Its value is a parameter
`freshId` of the create and update operations. The store methods require that
value not to be in use, which is the generator's contract. The seed data is
not part of this model either: a store starts from any sequence with unique ids.

## Model

| member | source | states |
|---|---|---|
| `Collection.IndexOf` | src/orders/orders.controller.js:151 | `find` by id: none exactly when no record has the id, else the first position holding it |
| `Collection.LastIndexOf` | src/orders/orders.controller.js:43-46 | the `forEach` scan's `delIndex`: none exactly when no record has the id, else the last position holding it |
| `Collection.UniqueMatch` | src/orders/orders.controller.js:41-47 | with unique ids the record `destroy` splices is the one `orderExists` found |
| `Collection.Splice` | src/orders/orders.controller.js:47 | `splice(start, 1)` removes exactly the element at `start` and keeps the rest in order; a start past the end removes nothing |
| `Pipeline.AllPass` | src/orders/orders.controller.js:216-247 | a middleware chain reaches its terminal handler exactly when every step passes |
| `Pipeline.FailsAt` | src/dishes/dishes.controller.js:103-126 | the first step that aborts, all earlier ones having passed, decides the response; later steps never run |
| `Pipeline.FailureComesFromAStep` | src/orders/orders.controller.js:216-247 | a failing chain's failure is some step's own failure, with every earlier step passing |
| `Pipeline.Concat` | src/orders/orders.controller.js:230-245 | running a chain that is two lists in sequence equals running the first and, if it passes, the second |
| `Pipeline.SameVerdict` | src/orders/orders.controller.js:230-245 | steps that behave the same give the chain the same verdict |
| `Orders.CheckQuantities` | src/orders/orders.controller.js:87-146 | each line-item check's loop yields exactly `QuantityFailure`: no failure when `badIndexes` stays empty, else 400 with the first bad index and `totalOrdered` |
| `Orders.RunSteps` | src/orders/orders.controller.js:216-247 | running the exported order steps in order yields the first step's failure, or none |
| `Orders.OrderStore.constructor` | src/orders/orders.controller.js:2 | the store starts from a seed with unique ids |
| `Orders.OrderStore.List` | src/orders/orders.controller.js:5-7 | `list` answers 200 with the collection itself and changes nothing |
| `Orders.OrderStore.Create` | src/orders/orders.controller.js:9-20 | runs the create pipeline; the response and new collection equal `CreateOutcome`; ids stay unique |
| `Orders.OrderStore.Read` | src/orders/orders.controller.js:22-25 | the response equals `ReadOutcome`; nothing changes |
| `Orders.OrderStore.Update` | src/orders/orders.controller.js:27-39 | runs the update pipeline, overwrites the found order; response and collection equal `UpdateOutcome`; ids stay unique |
| `Orders.OrderStore.Delete` | src/orders/orders.controller.js:41-48 | runs the delete pipeline, then the `forEach` loop and `splice`; response and collection equal `DeleteOutcome`; ids stay unique |
| `Orders.SpliceKeepsUnique` | src/orders/orders.controller.js:47 | removing one record keeps the remaining ids unique |
| `OrderProperties.FirstOffending` | src/orders/orders.controller.js:92-100 | a line-item check fails exactly when some quantity offends, and its first bad index is the least offending one |
| `OrderProperties.QuantityFailureAt` | src/orders/orders.controller.js:101-104 | the failure reports the first offending index and the sum of the non-offending quantities |
| `OrderProperties.QuantityChecksPass` | src/orders/orders.controller.js:224-226 | the three checks (undefined, `< 1`, `typeof number`) together pass exactly when every quantity is a number of at least 1 |
| `OrderProperties.CreateValidation` | src/orders/orders.controller.js:218-227 | the create steps pass exactly on a valid body; otherwise 400 naming the first falsy field of `deliverTo`, `mobileNumber`, `dishes`, then "at least one dish" for a non-array or empty list, then the first failing quantity check |
| `OrderProperties.CreateEffect` | src/orders/orders.controller.js:9-20 | create succeeds iff the body is valid; it then appends one order with the fresh id and the body's `deliverTo`, `mobileNumber`, `status` (as given) and `dishes`, answering 201; otherwise 400 and no change |
| `OrderProperties.CreateKeepsIdsUnique` | src/orders/orders.controller.js:12 | an id not in use keeps the ids unique after create |
| `OrderProperties.ReadEffect` | src/orders/orders.controller.js:148-161 | read answers 200 with the order carrying the route id, or 404 naming the id when there is none |
| `OrderProperties.UpdateNotFound` | src/orders/orders.controller.js:229-231 | update of an unknown id answers 404 whatever the body, and changes nothing |
| `OrderProperties.UpdateValidation` | src/orders/orders.controller.js:230-245 | once the order is found, update runs the create steps and then the status and id steps |
| `OrderProperties.StatusValidation` | src/orders/orders.controller.js:163-205 | status steps: missing or falsy status gives 400, then status `"invalid"` gives 400, then a truthy body id other than the route id gives 400 |
| `OrderProperties.UpdateStatusAndId` | src/orders/orders.controller.js:240-243 | with the order found and a valid body, each status or id rejection answers 400 and leaves the collection unchanged |
| `OrderProperties.UpdateEffect` | src/orders/orders.controller.js:27-39 | update succeeds iff the order exists and every check passes; it then overwrites that one order with the route id and the body's `deliverTo`, `mobileNumber`, `status`, `dishes`, answering 200; other orders and failures change nothing |
| `OrderProperties.UpdateIgnoresStoredStatus` | src/orders/orders.controller.js:184-191 | the stored status does not affect update's response, so a delivered order can still be changed |
| `OrderProperties.UpdateIdempotent` | src/orders/orders.controller.js:27-39 | repeating a successful update with the same body gives the same response and collection |
| `OrderProperties.DeleteEffect` | src/orders/orders.controller.js:207-214 | delete answers 404 for an unknown id and 400 unless the stored status is `"pending"`, changing nothing; otherwise it removes exactly that order, keeps the others in order, and answers 204 |
| `OrderProperties.DeleteThenRead` | src/orders/orders.controller.js:246 | after a successful delete, reading the same id answers 404 |
| `Dishes.RunSteps` | src/dishes/dishes.controller.js:103-126 | running the exported dish steps in order yields the first step's failure, or none |
| `Dishes.DishStore.constructor` | src/dishes/dishes.controller.js:2 | the store starts from a seed with unique ids |
| `Dishes.DishStore.List` | src/dishes/dishes.controller.js:5-7 | `list` answers 200 with the collection itself and changes nothing |
| `Dishes.DishStore.Create` | src/dishes/dishes.controller.js:9-21 | runs the create pipeline; response and collection equal `CreateOutcome`; ids stay unique |
| `Dishes.DishStore.Read` | src/dishes/dishes.controller.js:23-26 | the response equals `ReadOutcome`; nothing changes |
| `Dishes.DishStore.Update` | src/dishes/dishes.controller.js:28-39 | runs the update pipeline, overwrites the found dish; response and collection equal `UpdateOutcome`; ids stay unique |
| `Dishes.RenameKeepsUnique` | src/dishes/dishes.controller.js:32 | giving a dish its own id or one not in use keeps the ids unique |
| `DishProperties.CreateValidation` | src/dishes/dishes.controller.js:105-113 | the create steps pass exactly on a valid body; otherwise the first failure in order name, description, price present, price a number, price not negative, image_url decides the 400 |
| `DishProperties.ZeroPriceIsMissing` | src/dishes/dishes.controller.js:41-50 | a price of 0 is rejected as "Must include a price" and nothing changes |
| `DishProperties.CreateEffect` | src/dishes/dishes.controller.js:9-21 | create succeeds iff the body is valid; it then appends one dish with the fresh id and the body's `name`, `description`, `price`, `image_url`, answering 201; otherwise 400 and no change |
| `DishProperties.CreateKeepsIdsUnique` | src/dishes/dishes.controller.js:11 | an id not in use keeps the ids unique after create |
| `DishProperties.ReadEffect` | src/dishes/dishes.controller.js:90-101 | read answers 200 with the dish carrying the route id, or 404 naming the id when there is none |
| `DishProperties.UpdateValidation` | src/dishes/dishes.controller.js:52-64 | once the dish is found, a truthy body id other than the route id gives 400; otherwise the create steps decide |
| `DishProperties.UpdateEffect` | src/dishes/dishes.controller.js:28-39 | update answers 404 for an unknown id, then 400 for a mismatching body id, then the create steps' 400, changing nothing; on success it overwrites that one dish, whose id is the body id if given and the fresh id otherwise, answering 200 |
| `DishProperties.WritesAreWellFormed` | src/dishes/dishes.controller.js:44 | every dish that create or update writes has truthy `name`, `description`, `image_url` and a number `price` above 0 |
| `DishProperties.UpdateKeepsIdsUnique` | src/dishes/dishes.controller.js:32 | ids stay unique after update, whether the id is kept or regenerated |
| `DishProperties.UpdateWithoutIdLosesRouteId` | src/dishes/dishes.controller.js:32 | after a successful update whose body has no id, reading the route id answers 404 |
| `DishProperties.UpdateWithIdIdempotent` | src/dishes/dishes.controller.js:28-39 | repeating a successful update whose body carries the id gives the same response and collection |

## Left out

- Express plumbing: `req`/`res`, `res.locals`, JSON parsing, the router and the error handler. Responses are `Success(status, data)` or `Error(Failure(status, kind))` values.
- Message texts: each message is an error kind carrying the values it interpolates (field, index, total, ids).
- The second `next` call after `next(err)` (or after `next()` in `dishExists`): the "headers already sent" runtime behaviour is not modelled, only the first signal.
- `nextId` and the seed-data modules are not part of this model. The fresh id is a parameter, and the store methods require it not to be in use.
- Aliasing: records are values. The order or dish object that a response holds and that the collection keeps, and its in-place mutation as seen through other references, are modelled as replacing the element at its index.
- Numbers are integers. Fractional prices and quantities (which pass `typeof === "number"`), `NaN` and `Infinity` are not modelled.
- Orders.Amount: a non-number quantity that a check lets through adds 0 to `totalOrdered`. JavaScript would coerce it or concatenate strings, so the reported total is only exact for numeric quantities.
- Js.Quantity: for a non-number quantity, the result of `quantity < 1` is an abstract flag, not JavaScript's coercion rules. Only the combined accept/reject verdict of the three checks is claimed for such values.
- Dishes.NonNegative: `price >= 0` on a non-number is modelled as failing; the exported pipelines only reach it after the number check.
- A request body whose `data` is `null`: the default `{}` applies only to an absent `data`, so `data[propertyName]` throws in the first step of every create and order update (src/orders/orders.controller.js:53-54, src/dishes/dishes.controller.js:43-44) and in the id step of dish update (src/dishes/dishes.controller.js:54-55), and Express answers 500. The body is modelled as a map, which cannot be `null`, so for such a body the model answers the first body step's 400 instead (`MissingField("deliverTo")`, `MustInclude("name")`).
- A `dishes` element that is `null` (which makes `dish.quantity` throw) is not modelled: every element is read as a line item.
- The implicit globals `foundOrder` / `foundDish` and the loose `==` in `destroy` are not modelled; ids are strings and requests run one at a time.
