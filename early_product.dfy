/**
 * The earlier product service: the same operations as the product service,
 * written against the low-level table interface, where every attribute is
 * sent typed (`{'S': v}` or `{'N': str(v)}`), the product id comes from the
 * `id` path parameter, and the GET dispatch tests presence (`is not None`)
 * instead of truthiness.
 */
module EarlyProduct {
  import opened Wrappers
  import opened Json
  import opened Attributes
  import opened Store
  import opened Http
  import opened UpdateExpression

  /** The path parameter the handler reads the product id from. */
  const IdParameter: string := "id"

  /** The operation the handler picks for a request. */
  datatype Action =
    | Search(query: map<string, string>)
    | GetOne
    | GetAll
    | Create
    | Remove
    | Update
    | Refuse(error: Error)

  /**
   * The handler's dispatch. On GET, present query parameters (even an empty
   * map) win over present path parameters, which win over a full scan.
   */
  function Route(req: Request): (a: Action)
    ensures a.Search? <==> req.httpMethod == Some("GET") && req.queryStringParameters.Some?
    ensures a.Search? ==> a.query == req.queryStringParameters.value
    ensures a.GetOne? <==> req.httpMethod == Some("GET") && req.queryStringParameters.None? && req.pathParameters.Some?
    ensures a.GetAll? <==> req.httpMethod == Some("GET") && req.queryStringParameters.None? && req.pathParameters.None?
    ensures a.Create? <==> req.httpMethod == Some("POST")
    ensures a.Remove? <==> req.httpMethod == Some("DELETE")
    ensures a.Update? <==> req.httpMethod == Some("PUT")
    ensures a.Refuse? <==> req.httpMethod !in {Some("GET"), Some("POST"), Some("PUT"), Some("DELETE")}
    ensures a.Refuse? ==> a.error == UnsupportedRoute(req.httpMethod)
  {
    match req.httpMethod
    case Some("GET") =>
      if req.queryStringParameters.Some? then Search(req.queryStringParameters.value)
      else if req.pathParameters.Some? then GetOne
      else GetAll
    case Some("POST") => Create
    case Some("DELETE") => Remove
    case Some("PUT") => Update
    case _ => Refuse(UnsupportedRoute(req.httpMethod))
  }

  /** Every item of the table carries its id, as a string attribute, under the primary key. */
  predicate KeyedBy(items: map<string, TypedItem>, primaryKey: string) {
    forall k | k in items :: primaryKey in items[k] && items[k][primaryKey] == S(k)
  }

  /** `get_product` on the table's contents: a copy of the item, or `{}` when there is none. */
  function ProductOf(items: map<string, TypedItem>, req: Request): (r: Result<Reply, Error>)
    ensures r.Ok? <==> PathLookup(req, IdParameter).Ok? && PathLookup(req, IdParameter).value != ""
    ensures r.Ok? ==> var id := PathLookup(req, IdParameter).value;
                      r.value == Item(if id in items then items[id] else map[])
  {
    match PathLookup(req, IdParameter)
    case Err(e) => Err(e)
    case Ok(id) =>
      if id == "" then Err(StoreRejected(BadKey))
      else Ok(Item(if id in items then items[id] else map[]))
  }

  /**
   * `create_product`: the decoded body with the primary key set to the fresh
   * id, typed attribute by attribute; the table refuses an `N` attribute
   * whose text is not a number.
   */
  function Created(req: Request, primaryKey: string, freshId: string): (r: Result<TypedItem, Error>)
    ensures r.Ok? ==> req.body.Parsed? && req.body.value.Obj? && freshId != ""
    ensures r.Ok? ==> primaryKey in r.value && r.value[primaryKey] == S(freshId)
    ensures r.Ok? ==> forall k | k != primaryKey ::
      (k in r.value <==> k in Keys(req.body.value.fields))
      && (k in r.value ==> r.value[k] == Typed(Get(req.body.value.fields, k).value))
    ensures r.Ok? ==> forall k | k in r.value :: Storable(r.value[k])
  {
    match ParseBody(req)
    case Err(e) => Err(e)
    case Ok(v) =>
      if !v.Obj? then Err(NotADict)
      else
        var d := Set(v.fields, primaryKey, Str(freshId));
        SetKeys(v.fields, primaryKey, Str(freshId));
        var t := TypedItemOf(d);
        if exists k | k in t :: !Storable(t[k]) then Err(StoreRejected(BadItem))
        else if freshId == "" then Err(StoreRejected(BadKey))
        else Ok(t)
  }

  /** A creation whose body holds only strings and numbers is stored. */
  lemma CreateAcceptsScalars(req: Request, primaryKey: string, freshId: string)
    requires req.body.Parsed? && req.body.value.Obj? && freshId != ""
    requires forall i | 0 <= i < |req.body.value.fields| ::
      req.body.value.fields[i].value.Str? || req.body.value.fields[i].value.Num?
    ensures Created(req, primaryKey, freshId).Ok?
  {
    var fields := req.body.value.fields;
    var d := Set(fields, primaryKey, Str(freshId));
    SetKeys(fields, primaryKey, Str(freshId));
    var t := TypedItemOf(d);
    forall k | k in t ensures Storable(t[k]) {
      if k != primaryKey {
        assert k in Keys(fields);
        var i :| 0 <= i < |fields| && fields[i].key == k;
        GetFound(fields, i);
      }
    }
  }

  /** A value found under a key is one of the dict's values. */
  lemma {:induction false} GetFound(d: Dict, i: nat)
    requires i < |d|
    ensures Get(d, d[i].key).Some?
    ensures exists j | 0 <= j < |d| :: Get(d, d[i].key).value == d[j].value
  {
    if d[0].key == d[i].key {
      assert Get(d, d[i].key).value == d[0].value;
    } else {
      assert d[1..][i - 1] == d[i];
      GetFound(d[1..], i - 1);
      var j :| 0 <= j < |d[1..]| && Get(d[1..], d[i].key).value == d[1..][j].value;
      assert d[1..][j] == d[j + 1];
    }
  }

  /**
   * `update_product`: build the request from the body, then DynamoDB applies
   * it to the stored item (or to a new item holding only the key). The
   * request must read as a `SET` of distinct attributes other than the key,
   * with numeric `N` values.
   */
  function Updated(req: Request, primaryKey: string, items: map<string, TypedItem>)
    : (r: Result<(string, TypedItem), Error>)
    ensures r.Ok? ==> req.body.Parsed? && req.body.value.Obj?
    ensures r.Ok? ==> PathLookup(req, IdParameter) == Ok(r.value.0) && r.value.0 != ""
  {
    match ParseBody(req)
    case Err(e) => Err(e)
    case Ok(v) =>
      if !v.Obj? then Err(NotADict)
      else
        var update := Build(v.fields);
        match PathLookup(req, IdParameter)
        case Err(e) => Err(e)
        case Ok(id) =>
          if id == "" then Err(StoreRejected(BadKey))
          else match Assignments(update)
            case None => Err(StoreRejected(BadUpdate))
            case Some(asg) =>
              if !Acceptable(asg, primaryKey) || exists i | 0 <= i < |asg| :: !Storable(asg[i].1) then
                Err(StoreRejected(BadUpdate))
              else
                var existing := if id in items then items[id] else map[primaryKey := S(id)];
                Ok((id, ApplyTyped(existing, asg)))
  }

  /**
   * An update whose non-empty body holds only strings and numbers and does
   * not name the key sets each body field to its typed value and keeps every
   * other attribute of the item.
   */
  lemma UpdateSetsFields(req: Request, primaryKey: string, items: map<string, TypedItem>)
    requires req.body.Parsed? && req.body.value.Obj?
    requires var body := req.body.value.fields; Distinct(body) && |body| > 0 && primaryKey !in Keys(body)
    requires forall i | 0 <= i < |req.body.value.fields| ::
      req.body.value.fields[i].value.Str? || req.body.value.fields[i].value.Num?
    requires PathLookup(req, IdParameter).Ok? && PathLookup(req, IdParameter).value != ""
    ensures Updated(req, primaryKey, items).Ok?
    ensures var body := req.body.value.fields;
            var (id, after) := Updated(req, primaryKey, items).value;
            var before := if id in items then items[id] else map[primaryKey := S(id)];
            && (forall i | 0 <= i < |body| :: body[i].key in after && after[body[i].key] == Typed(body[i].value))
            && (forall k | k !in Keys(body) :: (k in after <==> k in before) && (k in before ==> after[k] == before[k]))
  {
    var body := req.body.value.fields;
    var id := PathLookup(req, IdParameter).value;
    BuildDenotes(body);
    IntendedDistinct(body);
    UpdateSetsBodyTyped(body, if id in items then items[id] else map[primaryKey := S(id)]);
  }

  /** An accepted update never touches the key attribute, so the item keeps its key. */
  lemma UpdateKeepsKey(req: Request, primaryKey: string, items: map<string, TypedItem>)
    requires Updated(req, primaryKey, items).Ok?
    requires KeyedBy(items, primaryKey)
    ensures var (id, after) := Updated(req, primaryKey, items).value; primaryKey in after && after[primaryKey] == S(id)
  {
    var v := req.body.value;
    var id := PathLookup(req, IdParameter).value;
    var asg := Assignments(Build(v.fields)).value;
    var existing := if id in items then items[id] else map[primaryKey := S(id)];
    ApplyTypedEffect(existing, asg);
  }

  /** `get_product_by_category`'s scan filter on typed items. */
  function CategoryFilter(matches: (TypedItem, string) -> bool, category: string): TypedItem -> bool {
    t => matches(t, category)
  }

  /** `get_product_by_category`: a missing `category` parameter raises; otherwise a list, `[]` when nothing matches. */
  method SearchProducts(q: map<string, string>, matches: (TypedItem, string) -> bool, products: Table<string, TypedItem>)
    returns (r: Result<Reply, Error>)
    ensures "category" !in q ==> r == Err(KeyNotFound("category"))
    ensures "category" in q ==> (r.Ok? && r.value.ItemList?
      && Listing(r.value.items, products.items, CategoryFilter(matches, q["category"])))
  {
    if "category" !in q {
      return Err(KeyNotFound("category"));
    }
    var ts, order := products.Scan(CategoryFilter(matches, q["category"]));
    r := Ok(ItemList(ts));
  }

  /** `get_product` against the table. */
  method GetProduct(req: Request, products: Table<string, TypedItem>) returns (r: Result<Reply, Error>)
    ensures r == ProductOf(products.items, req)
  {
    var id := PathLookup(req, IdParameter);
    if id.Err? {
      return Err(id.error);
    }
    if id.value == "" {
      return Err(StoreRejected(BadKey));
    }
    var found := products.Get(id.value);
    r := Ok(Item(if found.Some? then found.value else map[]));
  }

  /** `get_all_products`: the items as a list, or `{}` (not `[]`) when the table is empty. */
  method GetAllProducts(products: Table<string, TypedItem>) returns (r: Result<Reply, Error>)
    ensures r.Ok?
    ensures |products.items| == 0 ==> r.value == Item(map[])
    ensures |products.items| > 0 ==> r.value.ItemList? && Listing(r.value.items, products.items, All())
  {
    var ts, order := products.Scan(All());
    ListingEmpty(ts, products.items, All());
    r := Ok(if ts == [] then Item(map[]) else ItemList(ts));
  }

  /** `create_product` against the table: store the typed item under the fresh id, or change nothing. */
  method CreateProduct(req: Request, primaryKey: string, freshId: string, products: Table<string, TypedItem>)
    returns (r: Result<Reply, Error>)
    modifies products
    ensures var c := Created(req, primaryKey, freshId);
      && (c.Ok? ==> r == Ok(WriteAck) && products.items == old(products.items)[freshId := c.value])
      && (c.Err? ==> r == Err(c.error) && products.items == old(products.items))
  {
    var c := Created(req, primaryKey, freshId);
    if c.Err? {
      return Err(c.error);
    }
    products.Put(freshId, c.value);
    r := Ok(WriteAck);
  }

  /** `delete_product` against the table. */
  method DeleteProduct(req: Request, products: Table<string, TypedItem>) returns (r: Result<Reply, Error>)
    modifies products
    ensures var id := PathLookup(req, IdParameter);
      && (id.Err? ==> r == Err(id.error) && products.items == old(products.items))
      && (id.Ok? && id.value == "" ==> r == Err(StoreRejected(BadKey)) && products.items == old(products.items))
      && (id.Ok? && id.value != "" ==> r == Ok(WriteAck) && products.items == old(products.items) - {id.value})
  {
    var id := PathLookup(req, IdParameter);
    if id.Err? {
      return Err(id.error);
    }
    if id.value == "" {
      return Err(StoreRejected(BadKey));
    }
    products.Delete(id.value);
    r := Ok(WriteAck);
  }

  /** `update_product` against the table: store the updated item, or change nothing. */
  method UpdateProduct(req: Request, primaryKey: string, products: Table<string, TypedItem>)
    returns (r: Result<Reply, Error>)
    modifies products
    ensures var u := Updated(req, primaryKey, old(products.items));
      && (u.Ok? ==> r == Ok(WriteAck) && products.items == old(products.items)[u.value.0 := u.value.1])
      && (u.Err? ==> r == Err(u.error) && products.items == old(products.items))
  {
    var u := Updated(req, primaryKey, products.items);
    if u.Err? {
      return Err(u.error);
    }
    products.Put(u.value.0, u.value.1);
    r := Ok(WriteAck);
  }

  /**
   * `handler`: dispatch, run the operation, and wrap its value or its
   * exception into the envelope (without the traceback the source also
   * tries to send). `freshId` is the `uuid4` a creation uses, `matches` the
   * table's category filter.
   */
  method Handle(req: Request, primaryKey: string, freshId: string, matches: (TypedItem, string) -> bool,
                products: Table<string, TypedItem>)
    returns (resp: Response)
    modifies products
    ensures resp.statusCode == 200 || resp.statusCode == 500
    ensures KeyedBy(old(products.items), primaryKey) ==> KeyedBy(products.items, primaryKey)
    ensures match Route(req)
      case Refuse(e) => resp == Envelope(FailureMessage, Err(e)) && products.items == old(products.items)
      case Search(q) =>
        && ("category" !in q ==> resp == Envelope(FailureMessage, Err(KeyNotFound("category"))))
        && ("category" in q ==> (resp.statusCode == 200 && resp.content.Success? && resp.content.body.ItemList?
              && Listing(resp.content.body.items, old(products.items), CategoryFilter(matches, q["category"]))))
        && products.items == old(products.items)
      case GetOne =>
        resp == Envelope(SuccessMessage("GET"), ProductOf(old(products.items), req))
        && products.items == old(products.items)
      case GetAll =>
        && resp.statusCode == 200
        && (|old(products.items)| == 0 ==> resp.content == Success(SuccessMessage("GET"), Item(map[])))
        && (|old(products.items)| > 0 ==> (resp.content.Success? && resp.content.body.ItemList?
              && Listing(resp.content.body.items, old(products.items), All())))
        && products.items == old(products.items)
      case Create =>
        var c := Created(req, primaryKey, freshId);
        && (c.Ok? ==> resp.statusCode == 200 && products.items == old(products.items)[freshId := c.value])
        && (c.Err? ==> resp == Envelope(FailureMessage, Err(c.error)) && products.items == old(products.items))
      case Remove =>
        var id := PathLookup(req, IdParameter);
        && (id.Ok? && id.value != "" ==> resp.statusCode == 200 && products.items == old(products.items) - {id.value})
        && (!(id.Ok? && id.value != "") ==> resp.statusCode == 500 && products.items == old(products.items))
      case Update =>
        var u := Updated(req, primaryKey, old(products.items));
        && (u.Ok? ==> resp.statusCode == 200 && products.items == old(products.items)[u.value.0 := u.value.1])
        && (u.Err? ==> resp == Envelope(FailureMessage, Err(u.error)) && products.items == old(products.items))
  {
    var r: Result<Reply, Error>;
    match Route(req) {
      case Refuse(e) =>
        r := Err(e);
      case Search(q) =>
        r := SearchProducts(q, matches, products);
      case GetOne =>
        r := GetProduct(req, products);
      case GetAll =>
        r := GetAllProducts(products);
      case Create =>
        r := CreateProduct(req, primaryKey, freshId, products);
      case Remove =>
        r := DeleteProduct(req, products);
      case Update =>
        if Updated(req, primaryKey, products.items).Ok? && KeyedBy(products.items, primaryKey) {
          UpdateKeepsKey(req, primaryKey, products.items);
        }
        r := UpdateProduct(req, primaryKey, products);
    }
    resp := Envelope(if r.Ok? then SuccessMessage(req.httpMethod.value) else FailureMessage, r);
  }
}
