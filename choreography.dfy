/**
 * The checkout choreography across the services: the basket service
 * publishes one checkout entry to the bus, the checkout rule hands it to the
 * order function, and the order function stores the stamped payload. Both
 * services key their tables on the user name.
 */
module Choreography {
  import opened Wrappers
  import opened Json
  import opened Store
  import opened Events
  import opened Http
  import Basket
  import Order

  /**
   * With the intended routing, the payload a checkout prepares from a
   * request and a stored basket becomes the order of the basket's user,
   * dated `now`, carrying the basket's items, its total (unless the basket
   * brings its own `totalPrice`) and every other payload field.
   */
  lemma {:induction false} CheckoutBecomesOrder(request: Dict, basket: Dict, user: string, basketKey: string, now: string)
    requires Distinct(basket) && Get(basket, basketKey) == Some(Str(user)) && user != ""
    requires basketKey != Order.OrderDate && now != ""
    requires Basket.OrderPayload(request, basket).Ok?
    ensures var payload := Basket.OrderPayload(request, basket).value;
            var order := Order.Stamped(Order.IntendedRoute(Order.Delivery(Basket.CheckoutEntry(payload))).detail,
                                       now, basketKey, Order.OrderDate);
            && order.Ok?
            && order.value.0 == Order.OrderKey(user, now)
            && Get(order.value.1, "items") == Get(basket, "items")
            && ("totalPrice" !in Keys(basket) ==>
                  Get(order.value.1, "totalPrice") == Some(Num(Basket.Sum(Basket.Prices(Get(basket, "items").value.elems)))))
            && (forall k | k != Order.OrderDate :: Get(order.value.1, k) == Get(payload, k))
  {
    var payload := Basket.OrderPayload(request, basket).value;
    Order.DeliveryCreatesOrder(Basket.CheckoutEntry(payload), Request(None, None, None, None, NoBody));
    Basket.PayloadFields(request, basket, basketKey);
    StampedPayload(payload, user, now, basketKey);
    Basket.PayloadFields(request, basket, "items");
    Basket.PayloadFields(request, basket, "totalPrice");
    Basket.TotalIsSum(Get(basket, "items").value.elems);
  }

  /** A planned checkout names the request's own non-empty user, whose stored basket holds that name under the key. */
  lemma PlanPicksStoredBasket(req: Request, basketKey: string, items: map<string, Dict>)
    requires KeyedBy(items, basketKey)
    requires Basket.CheckoutPlan(req, basketKey, items).Ok?
    ensures var plan := Basket.CheckoutPlan(req, basketKey, items).value;
            && Basket.CheckoutUser(req, basketKey).Ok? && Basket.CheckoutUser(req, basketKey).value.1 == Str(plan.0)
            && plan.0 != "" && plan.0 in items
            && Get(items[plan.0], basketKey) == Some(Str(plan.0))
            && Basket.OrderPayload(Basket.CheckoutUser(req, basketKey).value.0, items[plan.0]) == Ok(plan.1)
  {
  }

  /** The two steps together: every checkout that gets past its plan becomes its user's order. */
  lemma PlannedCheckoutBecomesOrder(req: Request, basketKey: string, items: map<string, Dict>, now: string)
    requires KeyedBy(items, basketKey)
    requires forall k | k in items :: Distinct(items[k])
    requires basketKey != Order.OrderDate && now != ""
    requires Basket.CheckoutPlan(req, basketKey, items).Ok?
    ensures var plan := Basket.CheckoutPlan(req, basketKey, items).value;
            var order := Order.Stamped(Order.IntendedRoute(Order.Delivery(Basket.CheckoutEntry(plan.1))).detail,
                                       now, basketKey, Order.OrderDate);
            && order.Ok? && order.value.0 == Order.OrderKey(plan.0, now)
            && Get(order.value.1, "items") == Get(items[plan.0], "items")
  {
    var plan := Basket.CheckoutPlan(req, basketKey, items).value;
    PlanPicksStoredBasket(req, basketKey, items);
    CheckoutBecomesOrder(Basket.CheckoutUser(req, basketKey).value.0, items[plan.0], plan.0, basketKey, now);
  }

  /** A payload naming a user is stored as that user's order at the stamping date. */
  lemma StampedPayload(payload: Dict, user: string, now: string, basketKey: string)
    requires Get(payload, basketKey) == Some(Str(user)) && user != ""
    requires basketKey != Order.OrderDate && now != ""
    ensures Order.Stamped(Obj(payload), now, basketKey, Order.OrderDate).Ok?
    ensures Order.Stamped(Obj(payload), now, basketKey, Order.OrderDate).value.0 == Order.OrderKey(user, now)
  {
    var stamped := Set(payload, Order.OrderDate, Str(now));
    assert Get(stamped, basketKey) == Some(Str(user));
  }

  /**
   * As written, the same checkout entry is answered as an API request: the
   * order function returns a 500 response and stores nothing, so the
   * published basket, already deleted, never becomes an order.
   */
  lemma CheckoutIsLostAsWritten(req: Request, basketKey: string, items: map<string, Dict>, userKey: string, dateKey: string)
    requires Basket.CheckoutPlan(req, basketKey, items).Ok?
    ensures var payload := Basket.CheckoutPlan(req, basketKey, items).value.1;
            var inv := Order.Delivery(Basket.CheckoutEntry(payload));
            && Order.Route(inv).Query?
            && Order.QueryResponse(inv.request, userKey, dateKey).statusCode == 500
  {
    Order.DeliveryIsAnsweredAsQuery(Basket.CheckoutEntry(Basket.CheckoutPlan(req, basketKey, items).value.1), userKey, dateKey);
  }
}
