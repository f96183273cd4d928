/**
 * The orders controller: the in-memory `orders` collection, the validation
 * steps, the exported pipelines (create, read, update, delete) and their
 * terminal handlers.
 */
module Orders {
  import opened Wrappers
  import opened Js
  import opened Collection
  import opened Pipeline

  /** A stored order; every field but `id` is copied from a request body. */
  datatype Order = Order(id: string, deliverTo: Value, mobileNumber: Value, status: Value, dishes: Value)

  /** The message of each failure, as a kind with the values the message text includes. */
  datatype OrderError =
    | MissingField(field: string)            // Order/dish must include <field>
    | NoDishes                               // Order must include at least one dish
    | BadQuantity(index: nat, total: int)    // Dish <index> must have a quantity ... The quantity ordered was: <total>
    | OrderNotFound(orderId: string)         // <orderId> doesn't exist.
    | StatusRequired                         // Order must have a status of pending, preparing, out-for-delivery, delivered
    | DeliveredOrder                         // Delivery status invalid: a delivered order cannot be changed
    | IdMismatch(bodyId: Value, routeId: string)
    | NotPending                             // An order cannot be deleted unless it is pending

  /** The three line-item checks, which differ only in what makes a quantity offend. */
  datatype QuantityCheck = QuantitiesExist | HavePositiveQuantity | QuantityIsInt

  datatype OrderStep =
    | OrderExists
    | BodyDataHas(field: string)
    | DishesIsArray
    | DishesIsNotEmpty
    | Quantities(check: QuantityCheck)
    | StatusIsPresent
    | StatusPropNotEmpty
    | StatusNotDelivered
    | IdsMatch
    | StatusIsPending

  /** The validation steps of `create`, in the order they are exported. */
  const CreateSteps: seq<OrderStep> := [
    BodyDataHas("deliverTo"),
    BodyDataHas("mobileNumber"),
    BodyDataHas("dishes"),
    DishesIsArray,
    DishesIsNotEmpty,
    Quantities(QuantitiesExist),
    Quantities(HavePositiveQuantity),
    Quantities(QuantityIsInt)
  ]

  const ReadSteps: seq<OrderStep> := [OrderExists]

  /** The status and id steps that `update` runs after the body steps of `create`. */
  const StatusSteps: seq<OrderStep> := [StatusIsPresent, StatusPropNotEmpty, StatusNotDelivered, IdsMatch]

  const UpdateSteps: seq<OrderStep> := [OrderExists] + CreateSteps + StatusSteps

  const DeleteSteps: seq<OrderStep> := [OrderExists, StatusIsPending]

  /** The ids of the collection, position by position. */
  function Ids(orders: seq<Order>): seq<string>
  {
    seq(|orders|, i requires 0 <= i < |orders| => orders[i].id)
  }

  /** The line items of the body's `dishes`; the pipelines consult it only after `DishesIsArray` has passed. */
  function LineItems(data: Data): seq<LineItem>
  {
    match Get(data, "dishes")
    case Array(items) => items
    case _ => []
  }

  /** Whether a quantity lands in `badIndexes` for the given check. */
  predicate Offends(check: QuantityCheck, q: Quantity)
  {
    match check
    case QuantitiesExist => q.Missing?
    case HavePositiveQuantity =>
      (match q
       case Missing => false           // undefined < 1 is false
       case Number(n) => n < 1
       case NonNumber(belowOne) => belowOne)
    case QuantityIsInt => !q.Number?
  }

  /** What a non-offending quantity adds to `totalOrdered` (non-numbers are counted as 0). */
  function Amount(q: Quantity): int
  {
    if q.Number? then q.n else 0
  }

  /** The indexes the check's loop pushes onto `badIndexes`, in increasing order. */
  function BadIndexes(check: QuantityCheck, items: seq<LineItem>): seq<nat>
  {
    if |items| == 0 then []
    else BadIndexes(check, items[..|items| - 1])
         + (if Offends(check, items[|items| - 1].quantity) then [|items| - 1] else [])
  }

  /** The check's `totalOrdered`: the sum of the quantities that do not offend. */
  function TotalOrdered(check: QuantityCheck, items: seq<LineItem>): int
  {
    if |items| == 0 then 0
    else TotalOrdered(check, items[..|items| - 1])
         + (if Offends(check, items[|items| - 1].quantity) then 0 else Amount(items[|items| - 1].quantity))
  }

  /** The verdict of one line-item check: the first bad index and the total of the others. */
  function QuantityFailure(check: QuantityCheck, items: seq<LineItem>): Option<Failure<OrderError>>
  {
    var bad := BadIndexes(check, items);
    if |bad| == 0 then None else Some(Failure(400, BadQuantity(bad[0], TotalOrdered(check, items))))
  }

  /** The verdict of one step on a request for `orderId` with body `data`. */
  function CheckStep(step: OrderStep, orders: seq<Order>, orderId: string, data: Data): Option<Failure<OrderError>>
  {
    match step
    case OrderExists =>
      if IndexOf(Ids(orders), orderId).Some? then None else Some(Failure(404, OrderNotFound(orderId)))
    case BodyDataHas(field) =>
      if Truthy(Get(data, field)) then None else Some(Failure(400, MissingField(field)))
    case DishesIsArray =>
      if Get(data, "dishes").Array? then None else Some(Failure(400, NoDishes))
    case DishesIsNotEmpty =>
      if |LineItems(data)| > 0 then None else Some(Failure(400, NoDishes))
    case Quantities(check) =>
      QuantityFailure(check, LineItems(data))
    case StatusIsPresent =>
      if Get(data, "status") != Undefined then None else Some(Failure(400, StatusRequired))
    case StatusPropNotEmpty =>
      if Truthy(Get(data, "status")) then None else Some(Failure(400, StatusRequired))
    case StatusNotDelivered =>
      if Get(data, "status") != Str("invalid") then None else Some(Failure(400, DeliveredOrder))
    case IdsMatch =>
      // a mismatch calls next(err) and then falls through to next(): the first signal wins
      var id := Get(data, "id");
      if Truthy(id) && id != Str(orderId) then Some(Failure(400, IdMismatch(id, orderId))) else None
    case StatusIsPending =>
      match IndexOf(Ids(orders), orderId)
      case None => Some(Failure(404, OrderNotFound(orderId)))
      case Some(k) => if orders[k].status == Str("pending") then None else Some(Failure(400, NotPending))
  }

  function Checks(orders: seq<Order>, orderId: string, data: Data): OrderStep -> Option<Failure<OrderError>>
  {
    s => CheckStep(s, orders, orderId, data)
  }

  /** `create`: a new order with a fresh id and the body's fields, appended; 201. */
  function CreateOutcome(orders: seq<Order>, data: Data, freshId: string): (Response<Order, OrderError>, seq<Order>)
  {
    // POST /orders has no route parameter, and no create step reads one
    match FirstFailure(CreateSteps, Checks(orders, "", data))
    case Some(f) => (Error(f), orders)
    case None =>
      var order := Order(freshId, Get(data, "deliverTo"), Get(data, "mobileNumber"), Get(data, "status"), Get(data, "dishes"));
      (Success(201, order), orders + [order])
  }

  /** `read`: the order with the route id; 200. */
  function ReadOutcome(orders: seq<Order>, orderId: string): Response<Order, OrderError>
  {
    match FirstFailure(ReadSteps, Checks(orders, orderId, map[]))
    case Some(f) => Error(f)
    case None =>
      var k := IndexOf(Ids(orders), orderId);
      assert k.Some? by { AllPass(ReadSteps, Checks(orders, orderId, map[])); }
      Success(200, orders[k.value])
  }

  /**
   * `update`: the found order's five fields overwritten from the body; 200.
   * Its id becomes `id ? id : orderId`, which is the route id either way,
   * because `IdsMatch` has rejected a truthy body id that differs from it.
   */
  function UpdateOutcome(orders: seq<Order>, orderId: string, data: Data): (Response<Order, OrderError>, seq<Order>)
  {
    match FirstFailure(UpdateSteps, Checks(orders, orderId, data))
    case Some(f) => (Error(f), orders)
    case None =>
      var k := IndexOf(Ids(orders), orderId);
      assert k.Some? by { AllPass(UpdateSteps, Checks(orders, orderId, data)); }
      var order := Order(orderId, Get(data, "deliverTo"), Get(data, "mobileNumber"), Get(data, "status"), Get(data, "dishes"));
      (Success(200, order), orders[k.value := order])
  }

  /** Where `splice` starts from the `delIndex` of `destroy`: `null` reads as 0. */
  function SpliceStart(delIndex: Option<nat>): nat
  {
    match delIndex
    case None => 0
    case Some(k) => k
  }

  /** `destroy`: the last record with the order's id spliced out; 204. */
  function DeleteOutcome(orders: seq<Order>, orderId: string): (Response<(), OrderError>, seq<Order>)
  {
    match FirstFailure(DeleteSteps, Checks(orders, orderId, map[]))
    case Some(f) => (Error(f), orders)
    case None => (Success(204, ()), Splice(orders, SpliceStart(LastIndexOf(Ids(orders), orderId))))
  }

  /** One line-item check: the loop that fills `badIndexes` and `totalOrdered`. */
  method CheckQuantities(check: QuantityCheck, dishes: seq<LineItem>) returns (r: Option<Failure<OrderError>>)
    ensures r == QuantityFailure(check, dishes)
  {
    var totalOrdered := 0;
    var badIndexes: seq<nat> := [];
    var i := 0;
    while i < |dishes|
      invariant 0 <= i <= |dishes|
      invariant badIndexes == BadIndexes(check, dishes[..i])
      invariant totalOrdered == TotalOrdered(check, dishes[..i])
    {
      assert dishes[..i + 1][..i] == dishes[..i];
      if Offends(check, dishes[i].quantity) {
        badIndexes := badIndexes + [i];
      } else {
        totalOrdered := totalOrdered + Amount(dishes[i].quantity);
      }
      i := i + 1;
    }
    assert dishes[..i] == dishes;
    if |badIndexes| == 0 {
      r := None;
    } else {
      r := Some(Failure(400, BadQuantity(badIndexes[0], totalOrdered)));
    }
  }

  /** Runs the steps in order and stops at the first one that aborts. */
  method RunSteps(steps: seq<OrderStep>, orders: seq<Order>, orderId: string, data: Data)
    returns (r: Option<Failure<OrderError>>)
    ensures r == FirstFailure(steps, Checks(orders, orderId, data))
  {
    var i := 0;
    while i < |steps|
      invariant 0 <= i <= |steps|
      invariant FirstFailure(steps, Checks(orders, orderId, data)) == FirstFailure(steps[i..], Checks(orders, orderId, data))
    {
      assert steps[i..][0] == steps[i] && steps[i..][1..] == steps[i + 1..];
      var verdict: Option<Failure<OrderError>>;
      match steps[i] {
        case Quantities(check) =>
          verdict := CheckQuantities(check, LineItems(data));
        case _ =>
          verdict := CheckStep(steps[i], orders, orderId, data);
      }
      if verdict.Some? {
        return verdict;
      }
      i := i + 1;
    }
    r := None;
  }

  /** The orders collection, seeded at start-up; records are kept in insertion order. */
  class OrderStore {
    var orders: seq<Order>

    ghost predicate Valid()
      reads this
    {
      Unique(Ids(orders))
    }

    constructor (seed: seq<Order>)
      requires Unique(Ids(seed))
      ensures Valid() && orders == seed
    {
      orders := seed;
    }

    method List() returns (resp: Response<seq<Order>, OrderError>)
      ensures resp == Success(200, orders)
    {
      resp := Success(200, orders);
    }

    /** `freshId` is the value `nextId()` returns, distinct from every id in use. */
    method Create(data: Data, freshId: string) returns (resp: Response<Order, OrderError>)
      requires Valid() && freshId !in Ids(orders)
      modifies this
      ensures Valid()
      ensures (resp, orders) == CreateOutcome(old(orders), data, freshId)
    {
      var failure := RunSteps(CreateSteps, orders, "", data);
      if failure.Some? {
        resp := Error(failure.value);
        return;
      }
      var order := Order(freshId, Get(data, "deliverTo"), Get(data, "mobileNumber"), Get(data, "status"), Get(data, "dishes"));
      assert Ids(orders + [order]) == Ids(orders) + [freshId];
      orders := orders + [order];
      resp := Success(201, order);
    }

    method Read(orderId: string) returns (resp: Response<Order, OrderError>)
      ensures resp == ReadOutcome(orders, orderId)
    {
      var failure := RunSteps(ReadSteps, orders, orderId, map[]);
      if failure.Some? {
        resp := Error(failure.value);
        return;
      }
      AllPass(ReadSteps, Checks(orders, orderId, map[]));
      var k := IndexOf(Ids(orders), orderId).value;
      resp := Success(200, orders[k]);
    }

    method Update(orderId: string, data: Data) returns (resp: Response<Order, OrderError>)
      requires Valid()
      modifies this
      ensures Valid()
      ensures (resp, orders) == UpdateOutcome(old(orders), orderId, data)
    {
      var failure := RunSteps(UpdateSteps, orders, orderId, data);
      if failure.Some? {
        resp := Error(failure.value);
        return;
      }
      AllPass(UpdateSteps, Checks(orders, orderId, data));
      var k := IndexOf(Ids(orders), orderId).value;
      var order := Order(orderId, Get(data, "deliverTo"), Get(data, "mobileNumber"), Get(data, "status"), Get(data, "dishes"));
      assert Ids(orders[k := order]) == Ids(orders);
      orders := orders[k := order];
      resp := Success(200, order);
    }

    method Delete(orderId: string) returns (resp: Response<(), OrderError>)
      requires Valid()
      modifies this
      ensures Valid()
      ensures (resp, orders) == DeleteOutcome(old(orders), orderId)
    {
      var failure := RunSteps(DeleteSteps, orders, orderId, map[]);
      if failure.Some? {
        resp := Error(failure.value);
        return;
      }
      AllPass(DeleteSteps, Checks(orders, orderId, map[]));
      var id := orders[IndexOf(Ids(orders), orderId).value].id;
      var delIndex: Option<nat> := None;
      var i := 0;
      while i < |orders|
        invariant 0 <= i <= |orders|
        invariant delIndex == LastIndexOf(Ids(orders)[..i], id)
      {
        assert Ids(orders)[..i + 1][..i] == Ids(orders)[..i];
        if orders[i].id == id {
          delIndex := Some(i);
        }
        i := i + 1;
      }
      assert Ids(orders)[..i] == Ids(orders);
      var start := SpliceStart(delIndex);
      SpliceKeepsUnique(orders, start);
      orders := Splice(orders, start);
      resp := Success(204, ());
    }
  }

  /** Removing a record keeps the remaining ids unique. */
  lemma SpliceKeepsUnique(orders: seq<Order>, start: nat)
    requires Unique(Ids(orders))
    ensures Unique(Ids(Splice(orders, start)))
  {
    var r := Splice(orders, start);
    if start < |orders| {
      forall i, j | 0 <= i < j < |r|
        ensures r[i].id != r[j].id
      {
        var i' := if i < start then i else i + 1;
        var j' := if j < start then j else j + 1;
        assert r[i] == orders[i'] && r[j] == orders[j'];
        assert Ids(orders)[i'] != Ids(orders)[j'];
      }
      assert forall i :: 0 <= i < |r| ==> Ids(r)[i] == r[i].id;
    }
  }
}
