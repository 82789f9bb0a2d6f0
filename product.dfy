/**
 * The product service: CRUD on the product table through the resource-level
 * table interface, a category search, and a partial update built from the
 * request body.
 */
module Product {
  import opened Wrappers
  import opened Json
  import opened Attributes
  import opened Store
  import opened Http
  import opened UpdateExpression

  /** The operation the handler picks for a request. */
  datatype Action =
    | Search(query: map<string, string>)
    | GetOne(id: string)
    | GetAll
    | Create
    | Remove(id: string)
    | Update
    | Refuse(error: Error)

  /** `event.get('queryStringParameters')` is truthy: present and non-empty. */
  predicate HasQuery(req: Request) {
    req.queryStringParameters.Some? && |req.queryStringParameters.value| > 0
  }

  /**
   * The handler's dispatch. On GET, non-empty query parameters win over the
   * product-key path parameter, which wins over a full scan.
   */
  function Route(req: Request, productKey: string): (a: Action)
    ensures a.Search? <==> req.httpMethod == Some("GET") && HasQuery(req)
    ensures a.Search? ==> a.query == req.queryStringParameters.value
    ensures a.GetOne? <==> req.httpMethod == Some("GET") && !HasQuery(req) && PathParameter(req, productKey).Some?
    ensures a.GetOne? ==> a.id == PathParameter(req, productKey).value
    ensures a.GetAll? <==> req.httpMethod == Some("GET") && !HasQuery(req) && PathParameter(req, productKey).None?
    ensures a.Create? <==> req.httpMethod == Some("POST")
    ensures a.Update? <==> req.httpMethod == Some("PUT")
    ensures a.Remove? <==> req.httpMethod == Some("DELETE") && PathParameter(req, productKey).Some?
    ensures a.Remove? ==> a.id == PathParameter(req, productKey).value
    ensures a.Refuse? <==> req.httpMethod !in {Some("GET"), Some("POST"), Some("PUT"), Some("DELETE")}
                           || (req.httpMethod == Some("DELETE") && PathParameter(req, productKey).None?)
    ensures a.Refuse? && req.httpMethod == Some("DELETE") ==> a.error == MissingKeyOnDelete(productKey)
    ensures a.Refuse? && req.httpMethod != Some("DELETE") ==> a.error == UnsupportedRoute(req.httpMethod)
  {
    match req.httpMethod
    case Some("GET") =>
      if HasQuery(req) then Search(req.queryStringParameters.value)
      else (match PathParameter(req, productKey)
            case Some(id) => GetOne(id)
            case None => GetAll)
    case Some("POST") => Create
    case Some("DELETE") =>
      (match PathParameter(req, productKey)
       case Some(id) => Remove(id)
       case None => Refuse(MissingKeyOnDelete(productKey)))
    case Some("PUT") => Update
    case _ => Refuse(UnsupportedRoute(req.httpMethod))
  }

  /** `get_product` on the table's contents: the item, or `{}` when there is none. */
  function ProductOf(items: map<string, Dict>, id: string): (r: Result<Dict, Error>)
    ensures r.Ok? <==> id != ""
    ensures r.Ok? && id !in items ==> r.value == []
    ensures r.Ok? && id in items ==> r.value == items[id]
  {
    if id == "" then Err(StoreRejected(BadKey))
    else if id in items then Ok(items[id]) else Ok([])
  }

  /**
   * `create_product`: the decoded body with the product key set to the fresh
   * id, whatever the client sent there, and every other field as it came.
   */
  function Created(req: Request, productKey: string, freshId: string): (r: Result<Dict, Error>)
    ensures r.Ok? <==> req.body.Parsed? && req.body.value.Obj? && freshId != ""
    ensures r.Ok? ==> Get(r.value, productKey) == Some(Str(freshId))
    ensures r.Ok? ==> forall k | k != productKey :: Get(r.value, k) == Get(req.body.value.fields, k)
  {
    match ParseBody(req)
    case Err(e) => Err(e)
    case Ok(v) =>
      if !v.Obj? then Err(NotADict)
      else
        var d := Set(v.fields, productKey, Str(freshId));
        match ItemKey(Obj(d), productKey)
        case Err(e) => Err(e)
        case Ok(_) => Ok(d)
  }

  /**
   * `update_product`: build the request from the body, then DynamoDB applies
   * it to the stored item (or to a new item holding only the key). The
   * request must read as a `SET` of distinct attributes other than the key.
   */
  function Updated(req: Request, productKey: string, items: map<string, Dict>): (r: Result<(string, Dict), Error>)
    ensures r.Ok? ==> req.body.Parsed? && req.body.value.Obj?
    ensures r.Ok? ==> PathLookup(req, productKey) == Ok(r.value.0) && r.value.0 != ""
  {
    match ParseBody(req)
    case Err(e) => Err(e)
    case Ok(v) =>
      if !v.Obj? then Err(NotADict)
      else
        var update := Build(v.fields);
        match PathLookup(req, productKey)
        case Err(e) => Err(e)
        case Ok(id) =>
          if id == "" then Err(StoreRejected(BadKey))
          else match Assignments(update)
            case None => Err(StoreRejected(BadUpdate))
            case Some(asg) =>
              if !Acceptable(asg, productKey) then Err(StoreRejected(BadUpdate))
              else
                var existing := if id in items then items[id] else [Field(productKey, Str(id))];
                Ok((id, ApplyStored(existing, asg)))
  }

  /**
   * An update with a non-empty body that does not name the key sets each body
   * field to its typed value, as the table stores it, and keeps every other
   * field of the item.
   */
  lemma UpdateSetsFields(req: Request, productKey: string, items: map<string, Dict>)
    requires req.body.Parsed? && req.body.value.Obj?
    requires var body := req.body.value.fields; Distinct(body) && |body| > 0 && productKey !in Keys(body)
    requires PathLookup(req, productKey).Ok? && PathLookup(req, productKey).value != ""
    ensures Updated(req, productKey, items).Ok?
    ensures var body := req.body.value.fields;
            var (id, after) := Updated(req, productKey, items).value;
            var before := if id in items then items[id] else [Field(productKey, Str(id))];
            && (forall i | 0 <= i < |body| :: Get(after, body[i].key) == Some(AsStored(Typed(body[i].value))))
            && (forall k | k !in Keys(body) :: Get(after, k) == Get(before, k))
  {
    var body := req.body.value.fields;
    BuildDenotes(body);
    IntendedDistinct(body);
    UpdateSetsBodyStored(body, if PathLookup(req, productKey).value in items then items[PathLookup(req, productKey).value]
                               else [Field(productKey, Str(PathLookup(req, productKey).value))]);
  }

  /** An update with an empty body, or one that names the key attribute, is refused by the table. */
  lemma UpdateRefused(req: Request, productKey: string, items: map<string, Dict>)
    requires req.body.Parsed? && req.body.value.Obj?
    requires var body := req.body.value.fields; Distinct(body) && (|body| == 0 || productKey in Keys(body))
    requires PathLookup(req, productKey).Ok? && PathLookup(req, productKey).value != ""
    ensures Updated(req, productKey, items) == Err(StoreRejected(BadUpdate))
  {
    var body := req.body.value.fields;
    BuildDenotes(body);
  }

  /** `get_product_by_category`'s scan filter: the table's `contains (category, :category)`. */
  function CategoryFilter(matches: (Dict, string) -> bool, category: string): Dict -> bool {
    d => matches(d, category)
  }

  /** A category search that matches no product answers the empty list. */
  lemma SearchWithoutMatch(ds: seq<Dict>, items: map<string, Dict>, matches: (Dict, string) -> bool, category: string)
    requires Listing(ds, items, CategoryFilter(matches, category))
    requires forall k | k in items :: !matches(items[k], category)
    ensures Objs(ds) == []
  {
    ListingEmpty(ds, items, CategoryFilter(matches, category));
  }

  /** `get_product_by_category`: a scan filtered on the `category` query parameter, as a list. */
  method SearchProducts(q: map<string, string>, matches: (Dict, string) -> bool, products: Table<string, Dict>)
    returns (r: Result<Reply, Error>)
    ensures "category" !in q ==> r == Err(MissingCategory)
    ensures "category" in q ==> (r.Ok? && r.value.Data? && r.value.value.List?
      && exists ds :: Listing(ds, products.items, CategoryFilter(matches, q["category"])) && r.value.value.elems == Objs(ds))
  {
    if "category" !in q {
      return Err(MissingCategory);
    }
    var ds, order := products.Scan(CategoryFilter(matches, q["category"]));
    r := Ok(Data(List(Objs(ds))));
  }

  /** `get_product` against the table. */
  method GetProduct(id: string, products: Table<string, Dict>) returns (r: Result<Reply, Error>)
    ensures r == DataOf(ProductOf(products.items, id))
  {
    if id == "" {
      return Err(StoreRejected(BadKey));
    }
    var found := products.Get(id);
    r := Ok(Data(Obj(if found.Some? then found.value else [])));
  }

  /** `get_all_products`: a full scan, as a list. */
  method GetAllProducts(products: Table<string, Dict>) returns (r: Result<Reply, Error>)
    ensures r.Ok? && r.value.Data? && r.value.value.List?
    ensures exists ds :: Listing(ds, products.items, All()) && r.value.value.elems == Objs(ds)
  {
    var ds, order := products.Scan(All());
    r := Ok(Data(List(Objs(ds))));
  }

  /** `create_product` against the table: store the item under the fresh id, or change nothing. */
  method CreateProduct(req: Request, productKey: string, freshId: string, products: Table<string, Dict>)
    returns (r: Result<Reply, Error>)
    modifies products
    ensures var c := Created(req, productKey, freshId);
      && (c.Ok? ==> r == Ok(WriteAck) && products.items == old(products.items)[freshId := c.value])
      && (c.Err? ==> r == Err(c.error) && products.items == old(products.items))
  {
    var c := Created(req, productKey, freshId);
    if c.Err? {
      return Err(c.error);
    }
    products.Put(freshId, c.value);
    r := Ok(WriteAck);
  }

  /** `delete_product` against the table. */
  method DeleteProduct(id: string, products: Table<string, Dict>) returns (r: Result<Reply, Error>)
    modifies products
    ensures id == "" ==> r == Err(StoreRejected(BadKey)) && products.items == old(products.items)
    ensures id != "" ==> r == Ok(WriteAck) && products.items == old(products.items) - {id}
  {
    if id == "" {
      return Err(StoreRejected(BadKey));
    }
    products.Delete(id);
    r := Ok(WriteAck);
  }

  /** `update_product` against the table: store the updated item, or change nothing. */
  method UpdateProduct(req: Request, productKey: string, products: Table<string, Dict>)
    returns (r: Result<Reply, Error>)
    modifies products
    ensures var u := Updated(req, productKey, old(products.items));
      && (u.Ok? ==> r == Ok(WriteAck) && products.items == old(products.items)[u.value.0 := u.value.1])
      && (u.Err? ==> r == Err(u.error) && products.items == old(products.items))
  {
    var u := Updated(req, productKey, products.items);
    if u.Err? {
      return Err(u.error);
    }
    products.Put(u.value.0, u.value.1);
    r := Ok(WriteAck);
  }

  /**
   * `handler`: dispatch, run the operation, and wrap its value or its
   * exception into the envelope; no exception escapes. `freshId` is the
   * `uuid4` a creation uses, `matches` the table's category filter.
   */
  method Handle(req: Request, productKey: string, freshId: string, matches: (Dict, string) -> bool,
                products: Table<string, Dict>)
    returns (resp: Response)
    modifies products
    ensures resp.statusCode == 200 || resp.statusCode == 500
    ensures KeyedBy(old(products.items), productKey) ==> KeyedBy(products.items, productKey)
    ensures match Route(req, productKey)
      case Refuse(e) => resp == Envelope(FailureMessage, Err(e)) && products.items == old(products.items)
      case Search(q) =>
        && ("category" !in q ==> resp == Envelope(FailureMessage, Err(MissingCategory)))
        && ("category" in q ==> (resp.statusCode == 200 && resp.content.Success?
              && resp.content.body.Data? && resp.content.body.value.List?
              && exists ds :: Listing(ds, old(products.items), CategoryFilter(matches, q["category"]))
                              && resp.content.body.value.elems == Objs(ds)))
        && products.items == old(products.items)
      case GetOne(id) =>
        resp == Envelope(SuccessMessage("GET"), DataOf(ProductOf(old(products.items), id)))
        && products.items == old(products.items)
      case GetAll =>
        && resp.statusCode == 200 && resp.content.Success?
        && resp.content.body.Data? && resp.content.body.value.List?
        && (exists ds :: Listing(ds, old(products.items), All()) && resp.content.body.value.elems == Objs(ds))
        && products.items == old(products.items)
      case Create =>
        var c := Created(req, productKey, freshId);
        && (c.Ok? ==> resp.statusCode == 200 && products.items == old(products.items)[freshId := c.value])
        && (c.Err? ==> resp == Envelope(FailureMessage, Err(c.error)) && products.items == old(products.items))
      case Remove(id) =>
        resp.statusCode == (if id != "" then 200 else 500)
        && products.items == (if id != "" then old(products.items) - {id} else old(products.items))
      case Update =>
        var u := Updated(req, productKey, old(products.items));
        && (u.Ok? ==> resp.statusCode == 200 && products.items == old(products.items)[u.value.0 := u.value.1])
        && (u.Err? ==> resp == Envelope(FailureMessage, Err(u.error)) && products.items == old(products.items))
  {
    var r: Result<Reply, Error>;
    match Route(req, productKey) {
      case Refuse(e) =>
        r := Err(e);
      case Search(q) =>
        r := SearchProducts(q, matches, products);
      case GetOne(id) =>
        r := GetProduct(id, products);
      case GetAll =>
        r := GetAllProducts(products);
      case Create =>
        r := CreateProduct(req, productKey, freshId, products);
      case Remove(id) =>
        r := DeleteProduct(id, products);
      case Update =>
        if Updated(req, productKey, products.items).Ok? && KeyedBy(products.items, productKey) {
          UpdateKeepsKey(req, productKey, products.items);
        }
        r := UpdateProduct(req, productKey, products);
    }
    resp := Envelope(if r.Ok? then SuccessMessage(req.httpMethod.value) else FailureMessage, r);
  }

  /** An accepted update never touches the key attribute, so the item keeps its key. */
  lemma UpdateKeepsKey(req: Request, productKey: string, items: map<string, Dict>)
    requires Updated(req, productKey, items).Ok?
    requires KeyedBy(items, productKey)
    ensures var (id, after) := Updated(req, productKey, items).value; Get(after, productKey) == Some(Str(id))
  {
    var v := req.body.value;
    var id := PathLookup(req, productKey).value;
    var asg := Assignments(Build(v.fields)).value;
    var existing := if id in items then items[id] else [Field(productKey, Str(id))];
    ApplyStoredEffect(existing, asg);
  }
}
