/** What the orders pipelines accept, what they report, and how each handler changes the collection. */
module OrderProperties {
  import opened Wrappers
  import opened Js
  import opened Collection
  import opened Pipeline
  import opened Orders

  /** Every line item has a numeric quantity of at least 1. */
  ghost predicate QuantitiesOk(items: seq<LineItem>)
  {
    forall i :: 0 <= i < |items| ==> items[i].quantity.Number? && items[i].quantity.n >= 1
  }

  /** A body the create steps let through. */
  ghost predicate OrderBodyOk(data: Data)
  {
    && Truthy(Get(data, "deliverTo"))
    && Truthy(Get(data, "mobileNumber"))
    && Get(data, "dishes").Array?
    && |Get(data, "dishes").items| > 0
    && QuantitiesOk(Get(data, "dishes").items)
  }

  /** A body the update steps after `OrderExists` let through. */
  ghost predicate UpdateBodyOk(orderId: string, data: Data)
  {
    && OrderBodyOk(data)
    && Truthy(Get(data, "status"))
    && Get(data, "status") != Str("invalid")
    && (!Truthy(Get(data, "id")) || Get(data, "id") == Str(orderId))
  }

  /** A line-item check fails exactly when some quantity offends, and then it names the first such index. */
  lemma {:induction false} FirstOffending(check: QuantityCheck, items: seq<LineItem>)
    ensures BadIndexes(check, items) == [] <==> forall k :: 0 <= k < |items| ==> !Offends(check, items[k].quantity)
    ensures BadIndexes(check, items) != [] ==>
              var b := BadIndexes(check, items)[0];
              b < |items| && Offends(check, items[b].quantity)
              && forall k :: 0 <= k < b ==> !Offends(check, items[k].quantity)
  {
    if |items| > 0 {
      var init := items[..|items| - 1];
      FirstOffending(check, init);
      assert forall k :: 0 <= k < |init| ==> init[k] == items[k];
    }
  }

  /**
   * A failing line-item check reports the first offending index together with
   * the sum of the quantities that did not offend.
   */
  lemma QuantityFailureAt(check: QuantityCheck, items: seq<LineItem>, b: nat)
    requires b < |items| && Offends(check, items[b].quantity)
    requires forall k :: 0 <= k < b ==> !Offends(check, items[k].quantity)
    ensures QuantityFailure(check, items) == Some(Failure(400, BadQuantity(b, TotalOrdered(check, items))))
  {
    FirstOffending(check, items);
  }

  /** The three line-item checks together accept exactly the lists whose quantities are all numbers of at least 1. */
  lemma QuantityChecksPass(items: seq<LineItem>)
    ensures (&& QuantityFailure(QuantitiesExist, items).None?
             && QuantityFailure(HavePositiveQuantity, items).None?
             && QuantityFailure(QuantityIsInt, items).None?)
            <==> QuantitiesOk(items)
  {
    FirstOffending(QuantitiesExist, items);
    FirstOffending(HavePositiveQuantity, items);
    FirstOffending(QuantityIsInt, items);
    if !QuantitiesOk(items) {
      var k :| 0 <= k < |items| && !(items[k].quantity.Number? && items[k].quantity.n >= 1);
      assert Offends(QuantitiesExist, items[k].quantity) || Offends(HavePositiveQuantity, items[k].quantity)
             || Offends(QuantityIsInt, items[k].quantity);
    }
  }

  /**
   * The create steps accept exactly the bodies of `OrderBodyOk`; otherwise the
   * first failing check, in declared order, decides the 400 response.
   */
  lemma CreateValidation(orders: seq<Order>, orderId: string, data: Data)
    ensures FirstFailure(CreateSteps, Checks(orders, orderId, data)).None? <==> OrderBodyOk(data)
    ensures !Truthy(Get(data, "deliverTo")) ==>
              FirstFailure(CreateSteps, Checks(orders, orderId, data)) == Some(Failure(400, MissingField("deliverTo")))
    ensures Truthy(Get(data, "deliverTo")) && !Truthy(Get(data, "mobileNumber")) ==>
              FirstFailure(CreateSteps, Checks(orders, orderId, data)) == Some(Failure(400, MissingField("mobileNumber")))
    ensures Truthy(Get(data, "deliverTo")) && Truthy(Get(data, "mobileNumber")) && !Truthy(Get(data, "dishes")) ==>
              FirstFailure(CreateSteps, Checks(orders, orderId, data)) == Some(Failure(400, MissingField("dishes")))
    ensures Truthy(Get(data, "deliverTo")) && Truthy(Get(data, "mobileNumber")) && Truthy(Get(data, "dishes"))
            && (!Get(data, "dishes").Array? || |Get(data, "dishes").items| == 0) ==>
              FirstFailure(CreateSteps, Checks(orders, orderId, data)) == Some(Failure(400, NoDishes))
    ensures Truthy(Get(data, "deliverTo")) && Truthy(Get(data, "mobileNumber"))
            && Get(data, "dishes").Array? && |Get(data, "dishes").items| > 0 ==>
              var items := Get(data, "dishes").items;
              FirstFailure(CreateSteps, Checks(orders, orderId, data))
              == if QuantityFailure(QuantitiesExist, items).Some? then QuantityFailure(QuantitiesExist, items)
                 else if QuantityFailure(HavePositiveQuantity, items).Some? then QuantityFailure(HavePositiveQuantity, items)
                 else QuantityFailure(QuantityIsInt, items)
  {
    var f := Checks(orders, orderId, data);
    var dishes := Get(data, "dishes");
    if !Truthy(Get(data, "deliverTo")) {
      FailsAt(CreateSteps, f, 0);
    } else if !Truthy(Get(data, "mobileNumber")) {
      FailsAt(CreateSteps, f, 1);
    } else if !Truthy(dishes) {
      FailsAt(CreateSteps, f, 2);
    } else if !dishes.Array? {
      FailsAt(CreateSteps, f, 3);
    } else if |dishes.items| == 0 {
      FailsAt(CreateSteps, f, 4);
    } else {
      var items := dishes.items;
      assert LineItems(data) == items;
      QuantityChecksPass(items);
      if QuantityFailure(QuantitiesExist, items).Some? {
        FailsAt(CreateSteps, f, 5);
      } else if QuantityFailure(HavePositiveQuantity, items).Some? {
        FailsAt(CreateSteps, f, 6);
      } else if QuantityFailure(QuantityIsInt, items).Some? {
        FailsAt(CreateSteps, f, 7);
      } else {
        AllPass(CreateSteps, f);
      }
    }
  }

  /**
   * `create` succeeds exactly on an `OrderBodyOk` body: it appends one order
   * with the fresh id and the body's fields (status as given, even absent)
   * and answers 201; on any failure it answers 400 and changes nothing.
   */
  lemma CreateEffect(orders: seq<Order>, data: Data, freshId: string)
    ensures var (resp, after) := CreateOutcome(orders, data, freshId);
            && (resp.Success? <==> OrderBodyOk(data))
            && (resp.Success? ==>
                  && resp.status == 201
                  && resp.data == Order(freshId, Get(data, "deliverTo"), Get(data, "mobileNumber"),
                                        Get(data, "status"), Get(data, "dishes"))
                  && after == orders + [resp.data])
            && (resp.Error? ==> resp.failure.status == 400 && after == orders)
  {
    CreateValidation(orders, "", data);
    var items := LineItems(data);
    FirstOffending(QuantitiesExist, items);
    FirstOffending(HavePositiveQuantity, items);
    FirstOffending(QuantityIsInt, items);
  }

  /** A fresh id keeps the ids of the collection unique after `create`. */
  lemma CreateKeepsIdsUnique(orders: seq<Order>, data: Data, freshId: string)
    requires Unique(Ids(orders)) && freshId !in Ids(orders)
    ensures Unique(Ids(CreateOutcome(orders, data, freshId).1))
  {
    var after := CreateOutcome(orders, data, freshId).1;
    if after != orders {
      assert Ids(after) == Ids(orders) + [freshId];
    }
  }

  /** `read` answers 200 with the order carrying the route id, or 404 when there is none. */
  lemma ReadEffect(orders: seq<Order>, orderId: string)
    ensures ReadOutcome(orders, orderId).Success? <==> orderId in Ids(orders)
    ensures ReadOutcome(orders, orderId).Success? ==>
              var r := ReadOutcome(orders, orderId);
              r.status == 200 && r.data == orders[IndexOf(Ids(orders), orderId).value] && r.data.id == orderId
    ensures ReadOutcome(orders, orderId).Error? ==>
              ReadOutcome(orders, orderId) == Error(Failure(404, OrderNotFound(orderId)))
  {
    if orderId !in Ids(orders) {
      FailsAt(ReadSteps, Checks(orders, orderId, map[]), 0);
    }
  }

  /** `update` of an id that is not stored answers 404 before any body check and changes nothing. */
  lemma UpdateNotFound(orders: seq<Order>, orderId: string, data: Data)
    requires orderId !in Ids(orders)
    ensures UpdateOutcome(orders, orderId, data) == (Error(Failure(404, OrderNotFound(orderId))), orders)
  {
    FailsAt(UpdateSteps, Checks(orders, orderId, data), 0);
  }

  /** Once the order is found, `update` validates the body with the create steps and then the status and id steps. */
  lemma UpdateValidation(orders: seq<Order>, orderId: string, data: Data)
    requires orderId in Ids(orders)
    ensures FirstFailure(UpdateSteps, Checks(orders, orderId, data))
            == if FirstFailure(CreateSteps, Checks(orders, orderId, data)).Some?
               then FirstFailure(CreateSteps, Checks(orders, orderId, data))
               else FirstFailure(StatusSteps, Checks(orders, orderId, data))
  {
    var f := Checks(orders, orderId, data);
    Concat([OrderExists] + CreateSteps, StatusSteps, f);
    Concat([OrderExists], CreateSteps, f);
  }

  /** The status and id steps, in order: a missing or falsy status, then `"invalid"`, then a mismatching id. */
  lemma StatusValidation(orders: seq<Order>, orderId: string, data: Data)
    ensures FirstFailure(StatusSteps, Checks(orders, orderId, data))
            == if !Truthy(Get(data, "status")) then Some(Failure(400, StatusRequired))
               else if Get(data, "status") == Str("invalid") then Some(Failure(400, DeliveredOrder))
               else if Truthy(Get(data, "id")) && Get(data, "id") != Str(orderId)
               then Some(Failure(400, IdMismatch(Get(data, "id"), orderId)))
               else None
  {
    var f := Checks(orders, orderId, data);
    var status := Get(data, "status");
    if status == Undefined {
      FailsAt(StatusSteps, f, 0);
    } else if !Truthy(status) {
      FailsAt(StatusSteps, f, 1);
    } else if status == Str("invalid") {
      FailsAt(StatusSteps, f, 2);
    } else if Truthy(Get(data, "id")) && Get(data, "id") != Str(orderId) {
      FailsAt(StatusSteps, f, 3);
    } else {
      AllPass(StatusSteps, f);
    }
  }

  /**
   * With the order found and a valid body, `update` rejects a missing, falsy
   * or `"invalid"` status, and then a truthy body id that is not the route id,
   * each with 400 and no change.
   */
  lemma UpdateStatusAndId(orders: seq<Order>, orderId: string, data: Data)
    requires orderId in Ids(orders) && OrderBodyOk(data)
    ensures !Truthy(Get(data, "status")) ==>
              UpdateOutcome(orders, orderId, data) == (Error(Failure(400, StatusRequired)), orders)
    ensures Get(data, "status") == Str("invalid") ==>
              UpdateOutcome(orders, orderId, data) == (Error(Failure(400, DeliveredOrder)), orders)
    ensures Truthy(Get(data, "status")) && Get(data, "status") != Str("invalid")
            && Truthy(Get(data, "id")) && Get(data, "id") != Str(orderId) ==>
              UpdateOutcome(orders, orderId, data)
              == (Error(Failure(400, IdMismatch(Get(data, "id"), orderId))), orders)
  {
    UpdateValidation(orders, orderId, data);
    CreateValidation(orders, orderId, data);
    StatusValidation(orders, orderId, data);
  }

  /**
   * `update` succeeds exactly when the order exists and the body passes every
   * check; it then overwrites that one order with the body's fields, keeping
   * the route id, and answers 200.  A failure changes nothing.
   */
  lemma UpdateEffect(orders: seq<Order>, orderId: string, data: Data)
    ensures var (resp, after) := UpdateOutcome(orders, orderId, data);
            && (resp.Success? <==> orderId in Ids(orders) && UpdateBodyOk(orderId, data))
            && (resp.Success? ==>
                  && resp.status == 200
                  && resp.data == Order(orderId, Get(data, "deliverTo"), Get(data, "mobileNumber"),
                                        Get(data, "status"), Get(data, "dishes"))
                  && after == orders[IndexOf(Ids(orders), orderId).value := resp.data])
            && (resp.Error? ==> after == orders)
  {
    var f := Checks(orders, orderId, data);
    if orderId in Ids(orders) {
      UpdateValidation(orders, orderId, data);
      CreateValidation(orders, orderId, data);
      StatusValidation(orders, orderId, data);
    } else {
      UpdateNotFound(orders, orderId, data);
    }
  }

  /**
   * The stored status plays no part in `update`: the response is the same
   * whatever status the stored order has, so a delivered order can be changed.
   */
  lemma UpdateIgnoresStoredStatus(orders: seq<Order>, orderId: string, data: Data, k: nat, stored: Value)
    requires k < |orders|
    ensures UpdateOutcome(orders[k := orders[k].(status := stored)], orderId, data).0
            == UpdateOutcome(orders, orderId, data).0
  {
    var other := orders[k := orders[k].(status := stored)];
    assert Ids(other) == Ids(orders);
    forall i | 0 <= i < |UpdateSteps|
      ensures Checks(other, orderId, data)(UpdateSteps[i]) == Checks(orders, orderId, data)(UpdateSteps[i])
    {
    }
    SameVerdict(UpdateSteps, Checks(other, orderId, data), Checks(orders, orderId, data));
  }

  /** Repeating a successful `update` with the same body gives the same response and the same collection. */
  lemma UpdateIdempotent(orders: seq<Order>, orderId: string, data: Data)
    ensures var (resp, after) := UpdateOutcome(orders, orderId, data);
            resp.Success? ==> UpdateOutcome(after, orderId, data) == (resp, after)
  {
    var (resp, after) := UpdateOutcome(orders, orderId, data);
    UpdateEffect(orders, orderId, data);
    if resp.Success? {
      var k := IndexOf(Ids(orders), orderId).value;
      assert after[k] == resp.data && resp.data.id == orders[k].id;
      assert Ids(after) == Ids(orders);
      UpdateEffect(after, orderId, data);
      assert after[k := resp.data] == after;
    }
  }

  /**
   * `delete` answers 404 for an unknown id and 400 for an order whose current
   * status is not "pending", changing nothing; otherwise it removes exactly
   * that order, keeps the others in order, and answers 204.
   */
  lemma DeleteEffect(orders: seq<Order>, orderId: string)
    requires Unique(Ids(orders))
    ensures orderId !in Ids(orders) ==>
              DeleteOutcome(orders, orderId) == (Error(Failure(404, OrderNotFound(orderId))), orders)
    ensures orderId in Ids(orders) ==>
              var k := IndexOf(Ids(orders), orderId).value;
              && (orders[k].status == Str("pending") ==>
                    DeleteOutcome(orders, orderId) == (Success(204, ()), orders[..k] + orders[k + 1..]))
              && (orders[k].status != Str("pending") ==>
                    DeleteOutcome(orders, orderId) == (Error(Failure(400, NotPending)), orders))
  {
    var f := Checks(orders, orderId, map[]);
    if orderId !in Ids(orders) {
      FailsAt(DeleteSteps, f, 0);
    } else {
      var k := IndexOf(Ids(orders), orderId).value;
      UniqueMatch(Ids(orders), orderId);
      if orders[k].status == Str("pending") {
        AllPass(DeleteSteps, f);
      } else {
        FailsAt(DeleteSteps, f, 1);
      }
    }
  }

  /** After a successful `delete`, reading the same id answers 404. */
  lemma DeleteThenRead(orders: seq<Order>, orderId: string)
    requires Unique(Ids(orders)) && DeleteOutcome(orders, orderId).0.Success?
    ensures ReadOutcome(DeleteOutcome(orders, orderId).1, orderId) == Error(Failure(404, OrderNotFound(orderId)))
  {
    DeleteEffect(orders, orderId);
    var k := IndexOf(Ids(orders), orderId).value;
    var after := DeleteOutcome(orders, orderId).1;
    assert after == Splice(orders, k);
    forall j | 0 <= j < |after|
      ensures Ids(after)[j] != orderId
    {
      var j' := if j < k then j else j + 1;
      assert after[j] == orders[j'] && Ids(orders)[j'] != Ids(orders)[k];
    }
    ReadEffect(after, orderId);
  }
}
