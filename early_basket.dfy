/**
 * The earlier basket service: CRUD on the basket table, with the user name
 * read from the `userName` path parameter, a GET dispatch that tests the
 * presence of any path parameters, and a checkout that does nothing yet.
 */
module EarlyBasket {
  import opened Wrappers
  import opened Json
  import opened Store
  import opened Http
  import Basket

  /** The path parameter the handler reads the user name from. */
  const UserParameter: string := "userName"

  /** The operation the handler picks for a request. */
  datatype Action = GetOne | GetAll | Checkout | Create | Remove | Refuse(error: Error)

  /** The handler's dispatch on the method, the presence of path parameters and the path. */
  function Route(req: Request): (a: Action)
    ensures a.GetOne? <==> req.httpMethod == Some("GET") && req.pathParameters.Some?
    ensures a.GetAll? <==> req.httpMethod == Some("GET") && req.pathParameters.None?
    ensures a.Checkout? <==> req.httpMethod == Some("POST") && req.path == Some(Basket.CheckoutPath)
    ensures a.Create? <==> req.httpMethod == Some("POST") && req.path != Some(Basket.CheckoutPath)
    ensures a.Remove? <==> req.httpMethod == Some("DELETE")
    ensures a.Refuse? <==> req.httpMethod !in {Some("GET"), Some("POST"), Some("DELETE")}
    ensures a.Refuse? ==> a.error == UnsupportedRoute(req.httpMethod)
  {
    match req.httpMethod
    case Some("GET") => if req.pathParameters.Some? then GetOne else GetAll
    case Some("POST") => if req.path == Some(Basket.CheckoutPath) then Checkout else Create
    case Some("DELETE") => Remove
    case _ => Refuse(UnsupportedRoute(req.httpMethod))
  }

  /** `get_basket(event['pathParameters']['userName'])` on the table's contents: the basket, or `{}`. */
  function BasketFor(items: map<string, Dict>, req: Request): (r: Result<Dict, Error>)
    ensures r.Ok? <==> PathLookup(req, UserParameter).Ok? && PathLookup(req, UserParameter).value != ""
    ensures r.Ok? ==> var u := PathLookup(req, UserParameter).value;
                      r.value == if u in items then items[u] else []
  {
    match PathLookup(req, UserParameter)
    case Err(e) => Err(e)
    case Ok(u) => Basket.BasketOf(items, Str(u))
  }

  /** `get_all_baskets`: the baskets as a list, or `{}` (not `[]`) when the table is empty. */
  method GetAllBaskets(baskets: Table<string, Dict>) returns (r: Result<Reply, Error>)
    ensures r.Ok? && r.value.Data?
    ensures |baskets.items| == 0 ==> r.value.value == Obj([])
    ensures |baskets.items| > 0 ==> (r.value.value.List?
      && exists ds :: Listing(ds, baskets.items, All()) && r.value.value.elems == Objs(ds))
  {
    var ds, order := baskets.Scan(All());
    ListingEmpty(ds, baskets.items, All());
    r := Ok(Data(if ds == [] then Obj([]) else List(Objs(ds))));
  }

  /** `delete_basket(event['pathParameters']['userName'])` against the table. */
  method DeleteBasket(req: Request, baskets: Table<string, Dict>) returns (r: Result<Reply, Error>)
    modifies baskets
    ensures var u := PathLookup(req, UserParameter);
      && (u.Err? ==> r == Err(u.error) && baskets.items == old(baskets.items))
      && (u.Ok? && u.value == "" ==> r == Err(StoreRejected(BadKey)) && baskets.items == old(baskets.items))
      && (u.Ok? && u.value != "" ==> r == Ok(WriteAck) && baskets.items == old(baskets.items) - {u.value})
  {
    var u := PathLookup(req, UserParameter);
    if u.Err? {
      return Err(u.error);
    }
    if u.value == "" {
      return Err(StoreRejected(BadKey));
    }
    baskets.Delete(u.value);
    r := Ok(WriteAck);
  }

  /**
   * `handler`: dispatch, run the operation, and wrap its value or its
   * exception into the envelope. The checkout only logs its event and
   * answers `None`.
   */
  method Handle(req: Request, basketKey: string, baskets: Table<string, Dict>) returns (resp: Response)
    modifies baskets
    ensures resp.statusCode == 200 || resp.statusCode == 500
    ensures KeyedBy(old(baskets.items), basketKey) ==> KeyedBy(baskets.items, basketKey)
    ensures match Route(req)
      case Refuse(e) => resp == Envelope(FailureMessage, Err(e)) && baskets.items == old(baskets.items)
      case GetOne =>
        resp == Envelope(SuccessMessage("GET"), DataOf(BasketFor(old(baskets.items), req)))
        && baskets.items == old(baskets.items)
      case GetAll =>
        && resp.statusCode == 200
        && (|old(baskets.items)| == 0 ==> resp.content == Success(SuccessMessage("GET"), Data(Obj([]))))
        && (|old(baskets.items)| > 0 ==> (resp.content.Success? && resp.content.body.Data?
              && resp.content.body.value.List?
              && exists ds :: Listing(ds, old(baskets.items), All()) && resp.content.body.value.elems == Objs(ds)))
        && baskets.items == old(baskets.items)
      case Checkout =>
        resp == Envelope(SuccessMessage("POST"), Ok(Data(Null))) && baskets.items == old(baskets.items)
      case Create =>
        var c := Basket.Created(req, basketKey);
        && (c.Ok? ==> resp.statusCode == 200 && baskets.items == old(baskets.items)[c.value.0 := c.value.1])
        && (c.Err? ==> resp == Envelope(FailureMessage, Err(c.error)) && baskets.items == old(baskets.items))
      case Remove =>
        var u := PathLookup(req, UserParameter);
        && (u.Ok? && u.value != "" ==> resp.statusCode == 200 && baskets.items == old(baskets.items) - {u.value})
        && (!(u.Ok? && u.value != "") ==> resp.statusCode == 500 && baskets.items == old(baskets.items))
  {
    var r: Result<Reply, Error>;
    match Route(req) {
      case Refuse(e) =>
        r := Err(e);
      case GetOne =>
        var u := PathLookup(req, UserParameter);
        if u.Err? {
          r := Err(u.error);
        } else {
          var b := Basket.GetBasket(baskets, Str(u.value));
          r := DataOf(b);
        }
      case GetAll =>
        r := GetAllBaskets(baskets);
      case Checkout =>
        r := Ok(Data(Null));
      case Create =>
        var c := Basket.Created(req, basketKey);
        if c.Ok? {
          baskets.Put(c.value.0, c.value.1);
          r := Ok(WriteAck);
        } else {
          r := Err(c.error);
        }
      case Remove =>
        r := DeleteBasket(req, baskets);
    }
    resp := Envelope(if r.Ok? then SuccessMessage(req.httpMethod.value) else FailureMessage, r);
  }
}
