/** What the dishes pipelines accept, what they report, and how each handler changes the collection. */
module DishProperties {
  import opened Wrappers
  import opened Js
  import opened Collection
  import opened Pipeline
  import opened Dishes

  /** A body the create steps let through: the truthy presence check and `>= 0` together demand a price above 0. */
  ghost predicate DishBodyOk(data: Data)
  {
    && Truthy(Get(data, "name"))
    && Truthy(Get(data, "description"))
    && Get(data, "price").Num? && Get(data, "price").n > 0
    && Truthy(Get(data, "image_url"))
  }

  /** A stored dish whose fields satisfy what the create steps demand. */
  ghost predicate WellFormed(dish: Dish)
  {
    Truthy(dish.name) && Truthy(dish.description) && dish.price.Num? && dish.price.n > 0 && Truthy(dish.imageUrl)
  }

  /**
   * The create steps accept exactly the bodies of `DishBodyOk`; otherwise the
   * first failing check, in declared order (name, description, price present,
   * price a number, price not negative, image_url), decides the 400 response.
   */
  lemma CreateValidation(dishes: seq<Dish>, dishId: string, data: Data)
    ensures FirstFailure(CreateSteps, Checks(dishes, dishId, data))
            == if !Truthy(Get(data, "name")) then Some(Failure(400, MustInclude("name")))
               else if !Truthy(Get(data, "description")) then Some(Failure(400, MustInclude("description")))
               else if !Truthy(Get(data, "price")) then Some(Failure(400, MustInclude("price")))
               else if !Get(data, "price").Num? then Some(Failure(400, NotANumber("price")))
               else if Get(data, "price").n < 0 then Some(Failure(400, NegativePrice("price")))
               else if !Truthy(Get(data, "image_url")) then Some(Failure(400, MustInclude("image_url")))
               else None
    ensures FirstFailure(CreateSteps, Checks(dishes, dishId, data)).None? <==> DishBodyOk(data)
  {
    var f := Checks(dishes, dishId, data);
    var price := Get(data, "price");
    if !Truthy(Get(data, "name")) {
      FailsAt(CreateSteps, f, 0);
    } else if !Truthy(Get(data, "description")) {
      FailsAt(CreateSteps, f, 1);
    } else if !Truthy(price) {
      FailsAt(CreateSteps, f, 2);
    } else if !price.Num? {
      FailsAt(CreateSteps, f, 3);
    } else if price.n < 0 {
      FailsAt(CreateSteps, f, 4);
    } else if !Truthy(Get(data, "image_url")) {
      FailsAt(CreateSteps, f, 5);
    } else {
      AllPass(CreateSteps, f);
    }
  }

  /** A price of 0 is reported as missing: the presence check runs before the sign check. */
  lemma ZeroPriceIsMissing(dishes: seq<Dish>, data: Data, freshId: string)
    requires Truthy(Get(data, "name")) && Truthy(Get(data, "description")) && Get(data, "price") == Num(0)
    ensures CreateOutcome(dishes, data, freshId) == (Error(Failure(400, MustInclude("price"))), dishes)
  {
    CreateValidation(dishes, "", data);
  }

  /**
   * `create` succeeds exactly on a `DishBodyOk` body: it appends one dish with
   * the fresh id and the body's fields and answers 201; on any failure it
   * answers 400 and changes nothing.
   */
  lemma CreateEffect(dishes: seq<Dish>, data: Data, freshId: string)
    ensures var (resp, after) := CreateOutcome(dishes, data, freshId);
            && (resp.Success? <==> DishBodyOk(data))
            && (resp.Success? ==>
                  && resp.status == 201
                  && resp.data == Dish(freshId, Get(data, "name"), Get(data, "description"),
                                       Get(data, "price"), Get(data, "image_url"))
                  && after == dishes + [resp.data])
            && (resp.Error? ==> resp.failure.status == 400 && after == dishes)
  {
    CreateValidation(dishes, "", data);
  }

  /** A fresh id keeps the ids of the collection unique after `create`. */
  lemma CreateKeepsIdsUnique(dishes: seq<Dish>, data: Data, freshId: string)
    requires Unique(Ids(dishes)) && freshId !in Ids(dishes)
    ensures Unique(Ids(CreateOutcome(dishes, data, freshId).1))
  {
    var after := CreateOutcome(dishes, data, freshId).1;
    if after != dishes {
      assert Ids(after) == Ids(dishes) + [freshId];
    }
  }

  /** `read` answers 200 with the dish carrying the route id, or 404 when there is none. */
  lemma ReadEffect(dishes: seq<Dish>, dishId: string)
    ensures ReadOutcome(dishes, dishId).Success? <==> dishId in Ids(dishes)
    ensures ReadOutcome(dishes, dishId).Success? ==>
              var r := ReadOutcome(dishes, dishId);
              r.status == 200 && r.data == dishes[IndexOf(Ids(dishes), dishId).value] && r.data.id == dishId
    ensures ReadOutcome(dishes, dishId).Error? ==>
              ReadOutcome(dishes, dishId) == Error(Failure(404, DishNotFound(dishId)))
  {
    if dishId !in Ids(dishes) {
      FailsAt(ReadSteps, Checks(dishes, dishId, map[]), 0);
    }
  }

  /** Once the dish is found, `update` checks the body id and then runs the create steps. */
  lemma UpdateValidation(dishes: seq<Dish>, dishId: string, data: Data)
    requires dishId in Ids(dishes)
    ensures FirstFailure(UpdateSteps, Checks(dishes, dishId, data))
            == if Truthy(Get(data, "id")) && Get(data, "id") != Str(dishId)
               then Some(Failure(400, DishIdMismatch(Get(data, "id"), dishId)))
               else FirstFailure(CreateSteps, Checks(dishes, dishId, data))
  {
    var f := Checks(dishes, dishId, data);
    Concat([DishExists, BodyIdMatchesRouteParam("id")], CreateSteps, f);
    var head := [DishExists, BodyIdMatchesRouteParam("id")];
    if Truthy(Get(data, "id")) && Get(data, "id") != Str(dishId) {
      FailsAt(head, f, 1);
    } else {
      AllPass(head, f);
    }
  }

  /**
   * `update` answers 404 for an unknown id, then 400 for a truthy body id
   * other than the route id, then the create steps' 400; a failure changes
   * nothing.  On success it overwrites that one dish and answers 200; the
   * dish's id becomes the body id when one is given and the fresh id otherwise.
   */
  lemma UpdateEffect(dishes: seq<Dish>, dishId: string, data: Data, freshId: string)
    ensures dishId !in Ids(dishes) ==>
              UpdateOutcome(dishes, dishId, data, freshId) == (Error(Failure(404, DishNotFound(dishId))), dishes)
    ensures dishId in Ids(dishes) && Truthy(Get(data, "id")) && Get(data, "id") != Str(dishId) ==>
              UpdateOutcome(dishes, dishId, data, freshId)
              == (Error(Failure(400, DishIdMismatch(Get(data, "id"), dishId))), dishes)
    ensures var (resp, after) := UpdateOutcome(dishes, dishId, data, freshId);
            && (resp.Success? <==>
                  dishId in Ids(dishes) && (!Truthy(Get(data, "id")) || Get(data, "id") == Str(dishId))
                  && DishBodyOk(data))
            && (resp.Success? ==>
                  && resp.status == 200
                  && (Truthy(Get(data, "id")) ==> Get(data, "id") == Str(resp.data.id))
                  && (!Truthy(Get(data, "id")) ==> resp.data.id == freshId)
                  && resp.data == Dish(resp.data.id, Get(data, "name"), Get(data, "description"),
                                       Get(data, "price"), Get(data, "image_url"))
                  && after == dishes[IndexOf(Ids(dishes), dishId).value := resp.data])
            && (resp.Error? ==> after == dishes)
  {
    if dishId in Ids(dishes) {
      UpdateValidation(dishes, dishId, data);
      CreateValidation(dishes, dishId, data);
    } else {
      FailsAt(UpdateSteps, Checks(dishes, dishId, data), 0);
    }
  }

  /** Every dish `create` or `update` writes is well formed, although seeded dishes need not be. */
  lemma WritesAreWellFormed(dishes: seq<Dish>, dishId: string, data: Data, freshId: string)
    ensures CreateOutcome(dishes, data, freshId).0.Success? ==> WellFormed(CreateOutcome(dishes, data, freshId).0.data)
    ensures UpdateOutcome(dishes, dishId, data, freshId).0.Success? ==>
              WellFormed(UpdateOutcome(dishes, dishId, data, freshId).0.data)
  {
    CreateEffect(dishes, data, freshId);
    UpdateEffect(dishes, dishId, data, freshId);
  }

  /** An id that is the dish's own or not in use keeps the ids unique after `update`. */
  lemma UpdateKeepsIdsUnique(dishes: seq<Dish>, dishId: string, data: Data, freshId: string)
    requires Unique(Ids(dishes)) && freshId !in Ids(dishes)
    ensures Unique(Ids(UpdateOutcome(dishes, dishId, data, freshId).1))
  {
    var (resp, after) := UpdateOutcome(dishes, dishId, data, freshId);
    UpdateEffect(dishes, dishId, data, freshId);
    if resp.Success? {
      RenameKeepsUnique(dishes, IndexOf(Ids(dishes), dishId).value, resp.data);
    }
  }

  /**
   * An `update` whose body has no id gives the dish a fresh id, so the route
   * id stops naming any dish: reading it afterwards answers 404.
   */
  lemma UpdateWithoutIdLosesRouteId(dishes: seq<Dish>, dishId: string, data: Data, freshId: string)
    requires Unique(Ids(dishes)) && freshId !in Ids(dishes)
    requires !Truthy(Get(data, "id")) && UpdateOutcome(dishes, dishId, data, freshId).0.Success?
    ensures ReadOutcome(UpdateOutcome(dishes, dishId, data, freshId).1, dishId)
            == Error(Failure(404, DishNotFound(dishId)))
  {
    UpdateEffect(dishes, dishId, data, freshId);
    var k := IndexOf(Ids(dishes), dishId).value;
    var after := UpdateOutcome(dishes, dishId, data, freshId).1;
    forall j | 0 <= j < |after|
      ensures Ids(after)[j] != dishId
    {
      if j != k {
        assert Ids(dishes)[j] != Ids(dishes)[k];
      }
    }
    ReadEffect(after, dishId);
  }

  /** Repeating a successful `update` whose body carries the id gives the same response and collection. */
  lemma UpdateWithIdIdempotent(dishes: seq<Dish>, dishId: string, data: Data, freshId: string, freshId': string)
    requires Truthy(Get(data, "id"))
    ensures var (resp, after) := UpdateOutcome(dishes, dishId, data, freshId);
            resp.Success? ==> UpdateOutcome(after, dishId, data, freshId') == (resp, after)
  {
    var (resp, after) := UpdateOutcome(dishes, dishId, data, freshId);
    UpdateEffect(dishes, dishId, data, freshId);
    if resp.Success? {
      var k := IndexOf(Ids(dishes), dishId).value;
      assert after[k] == resp.data && resp.data.id == dishes[k].id;
      assert Ids(after) == Ids(dishes);
      UpdateEffect(after, dishId, data, freshId');
      assert after[k := resp.data] == after;
    }
  }
}
