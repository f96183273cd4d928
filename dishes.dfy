/**
 * The dishes controller: the in-memory `dishes` collection, the validation
 * steps, the exported pipelines (create, read, update) and their terminal
 * handlers.  Dishes are never deleted.
 */
module Dishes {
  import opened Wrappers
  import opened Js
  import opened Collection
  import opened Pipeline

  /** A stored dish; every field but `id` is copied from a request body. */
  datatype Dish = Dish(id: string, name: Value, description: Value, price: Value, imageUrl: Value)

  /** The message of each failure, as a kind with the values the message text includes. */
  datatype DishError =
    | MustInclude(field: string)                    // Must include a <field>
    | NotANumber(field: string)                     // <field> is not of type "number".
    | NegativePrice(field: string)                  // Price can not be negative... <field>.
    | DishNotFound(dishId: string)                  // Dish does not exist: <dishId>.
    | DishIdMismatch(bodyId: Value, routeId: string)

  datatype DishStep =
    | DishExists
    | BodyIdMatchesRouteParam(field: string)
    | BodyDataHas(field: string)
    | PriceIsAnInt(field: string)
    | PriceIsPositive(field: string)

  /** The validation steps of `create`, in the order they are exported. */
  const CreateSteps: seq<DishStep> := [
    BodyDataHas("name"),
    BodyDataHas("description"),
    BodyDataHas("price"),
    PriceIsAnInt("price"),
    PriceIsPositive("price"),
    BodyDataHas("image_url")
  ]

  const ReadSteps: seq<DishStep> := [DishExists]

  const UpdateSteps: seq<DishStep> := [DishExists, BodyIdMatchesRouteParam("id")] + CreateSteps

  /** The ids of the collection, position by position. */
  function Ids(dishes: seq<Dish>): seq<string>
  {
    seq(|dishes|, i requires 0 <= i < |dishes| => dishes[i].id)
  }

  /**
   * `value >= 0`.  The pipelines run it only after the number check has
   * passed, so JavaScript's coercion of other values is not modelled: they fail.
   */
  predicate NonNegative(v: Value)
  {
    v.Num? && v.n >= 0
  }

  /** The verdict of one step on a request for `dishId` with body `data`. */
  function CheckStep(step: DishStep, dishes: seq<Dish>, dishId: string, data: Data): Option<Failure<DishError>>
  {
    match step
    case DishExists =>
      // a found dish calls next() and then falls through to next(err): the first signal wins
      if IndexOf(Ids(dishes), dishId).Some? then None else Some(Failure(404, DishNotFound(dishId)))
    case BodyIdMatchesRouteParam(field) =>
      // compared with the id of the dish `DishExists` found, which is the route id
      var bodyId := Get(data, field);
      if Truthy(bodyId) && bodyId != Str(dishId) then Some(Failure(400, DishIdMismatch(bodyId, dishId))) else None
    case BodyDataHas(field) =>
      if Truthy(Get(data, field)) then None else Some(Failure(400, MustInclude(field)))
    case PriceIsAnInt(field) =>
      if Get(data, field).Num? then None else Some(Failure(400, NotANumber(field)))
    case PriceIsPositive(field) =>
      if NonNegative(Get(data, field)) then None else Some(Failure(400, NegativePrice(field)))
  }

  function Checks(dishes: seq<Dish>, dishId: string, data: Data): DishStep -> Option<Failure<DishError>>
  {
    s => CheckStep(s, dishes, dishId, data)
  }

  /** The dish `create` and `update` write: `id` and the four body fields. */
  function FromBody(id: string, data: Data): Dish
  {
    Dish(id, Get(data, "name"), Get(data, "description"), Get(data, "price"), Get(data, "image_url"))
  }

  /** `create`: a new dish with a fresh id and the body's fields, appended; 201. */
  function CreateOutcome(dishes: seq<Dish>, data: Data, freshId: string): (Response<Dish, DishError>, seq<Dish>)
  {
    // POST /dishes has no route parameter, and no create step reads one
    match FirstFailure(CreateSteps, Checks(dishes, "", data))
    case Some(f) => (Error(f), dishes)
    case None =>
      var dish := FromBody(freshId, data);
      (Success(201, dish), dishes + [dish])
  }

  /** `read`: the dish with the route id; 200. */
  function ReadOutcome(dishes: seq<Dish>, dishId: string): Response<Dish, DishError>
  {
    match FirstFailure(ReadSteps, Checks(dishes, dishId, map[]))
    case Some(f) => Error(f)
    case None =>
      var k := IndexOf(Ids(dishes), dishId);
      assert k.Some? by { AllPass(ReadSteps, Checks(dishes, dishId, map[])); }
      Success(200, dishes[k.value])
  }

  /**
   * `update`: the found dish overwritten from the body; 200.  Its id becomes
   * `id ? id : nextId()`: a truthy body id has already been checked to equal
   * the route id, and a falsy one gives the dish the fresh id.
   */
  function UpdateOutcome(dishes: seq<Dish>, dishId: string, data: Data, freshId: string)
    : (Response<Dish, DishError>, seq<Dish>)
  {
    match FirstFailure(UpdateSteps, Checks(dishes, dishId, data))
    case Some(f) => (Error(f), dishes)
    case None =>
      var k := IndexOf(Ids(dishes), dishId);
      assert k.Some? by { AllPass(UpdateSteps, Checks(dishes, dishId, data)); }
      var dish := FromBody(if Truthy(Get(data, "id")) then dishId else freshId, data);
      (Success(200, dish), dishes[k.value := dish])
  }

  /** Runs the steps in order and stops at the first one that aborts. */
  method RunSteps(steps: seq<DishStep>, dishes: seq<Dish>, dishId: string, data: Data)
    returns (r: Option<Failure<DishError>>)
    ensures r == FirstFailure(steps, Checks(dishes, dishId, data))
  {
    var i := 0;
    while i < |steps|
      invariant 0 <= i <= |steps|
      invariant FirstFailure(steps, Checks(dishes, dishId, data)) == FirstFailure(steps[i..], Checks(dishes, dishId, data))
    {
      assert steps[i..][0] == steps[i] && steps[i..][1..] == steps[i + 1..];
      var verdict := CheckStep(steps[i], dishes, dishId, data);
      if verdict.Some? {
        return verdict;
      }
      i := i + 1;
    }
    r := None;
  }

  /** The dishes collection, seeded at start-up; records are kept in insertion order. */
  class DishStore {
    var dishes: seq<Dish>

    ghost predicate Valid()
      reads this
    {
      Unique(Ids(dishes))
    }

    constructor (seed: seq<Dish>)
      requires Unique(Ids(seed))
      ensures Valid() && dishes == seed
    {
      dishes := seed;
    }

    method List() returns (resp: Response<seq<Dish>, DishError>)
      ensures resp == Success(200, dishes)
    {
      resp := Success(200, dishes);
    }

    /** `freshId` is the value `nextId()` returns, distinct from every id in use. */
    method Create(data: Data, freshId: string) returns (resp: Response<Dish, DishError>)
      requires Valid() && freshId !in Ids(dishes)
      modifies this
      ensures Valid()
      ensures (resp, dishes) == CreateOutcome(old(dishes), data, freshId)
    {
      var failure := RunSteps(CreateSteps, dishes, "", data);
      if failure.Some? {
        resp := Error(failure.value);
        return;
      }
      var dish := FromBody(freshId, data);
      assert Ids(dishes + [dish]) == Ids(dishes) + [freshId];
      dishes := dishes + [dish];
      resp := Success(201, dish);
    }

    method Read(dishId: string) returns (resp: Response<Dish, DishError>)
      ensures resp == ReadOutcome(dishes, dishId)
    {
      var failure := RunSteps(ReadSteps, dishes, dishId, map[]);
      if failure.Some? {
        resp := Error(failure.value);
        return;
      }
      AllPass(ReadSteps, Checks(dishes, dishId, map[]));
      var k := IndexOf(Ids(dishes), dishId).value;
      resp := Success(200, dishes[k]);
    }

    /** `freshId` is the value `nextId()` would return, used when the body has no id. */
    method Update(dishId: string, data: Data, freshId: string) returns (resp: Response<Dish, DishError>)
      requires Valid() && freshId !in Ids(dishes)
      modifies this
      ensures Valid()
      ensures (resp, dishes) == UpdateOutcome(old(dishes), dishId, data, freshId)
    {
      var failure := RunSteps(UpdateSteps, dishes, dishId, data);
      if failure.Some? {
        resp := Error(failure.value);
        return;
      }
      AllPass(UpdateSteps, Checks(dishes, dishId, data));
      var k := IndexOf(Ids(dishes), dishId).value;
      var id := if Truthy(Get(data, "id")) then dishId else freshId;
      var dish := FromBody(id, data);
      RenameKeepsUnique(dishes, k, dish);
      dishes := dishes[k := dish];
      resp := Success(200, dish);
    }
  }

  /** Giving one dish an id that is its own or not in use keeps the ids unique. */
  lemma RenameKeepsUnique(dishes: seq<Dish>, k: nat, dish: Dish)
    requires Unique(Ids(dishes)) && k < |dishes|
    requires dish.id == dishes[k].id || dish.id !in Ids(dishes)
    ensures Unique(Ids(dishes[k := dish]))
  {
    var after := dishes[k := dish];
    forall i, j | 0 <= i < j < |after|
      ensures Ids(after)[i] != Ids(after)[j]
    {
      assert Ids(dishes)[i] != Ids(dishes)[j];
    }
  }
}
