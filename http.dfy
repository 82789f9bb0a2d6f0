/**
 * What the handlers receive from the API gateway and what they answer: the
 * proxy request, the exceptions a handler can raise, and the
 * `{statusCode, body: {message, body | errorMsg}}` envelope.
 */
module Http {
  import opened Wrappers
  import opened Json
  import opened Attributes
  import opened Events
  import opened Store

  /**
   * The request body after `json.loads`: absent (no `body` key), unreadable
   * (invalid JSON, or a null body), or the decoded value.
   */
  datatype Body = NoBody | BadJson | Parsed(value: Value)

  /** The proxy request fields the handlers read; `None` stands for an absent or null field. */
  datatype Request = Request(
    httpMethod: Option<string>,
    path: Option<string>,
    pathParameters: Option<map<string, string>>,
    queryStringParameters: Option<map<string, string>>,
    body: Body)

  /** Why the table refused a call (a `ClientError` or a parameter validation error). */
  datatype StoreFault =
    | BadKey     // the key attribute is missing, not a string, or empty
    | BadItem    // the item is not a map, or an `N` attribute is not a number
    | BadUpdate  // the update expression cannot be read, or writes the key attribute

  /** The exceptions a handler turns into a failure response, one per distinct `errorMsg`. */
  datatype Error =
    | UnsupportedRoute(httpMethod: Option<string>)          // `Unsupported route: "<method>"`
    | MissingKeyOnDelete(keyName: string)               // `<key> must be specified on a DELETE request`
    | MissingUserName(keyName: string)                  // `<key> should exist in checkoutRequest: ...`
    | NoBasket(userName: Value)                         // `No basket found for user "<user>"`
    | InvalidItems                                      // `Basket should contain a list of items: ...`
    | BadPrice                                          // an item without a numeric `price`
    | MissingCategory                                   // `Query parameters on url must contain "category"`
    | MissingOrderKeys(userKey: string, dateKey: string) // `url must include path parameters ...`
    | OrderQueryUnavailable                             // the order lookup itself
    | NoPathParameters                                  // subscripting a null `pathParameters`
    | KeyNotFound(key: string)                          // a `KeyError`
    | NotADict                                          // a dict operation on a value that is not a dict
    | MalformedJson                                     // `json.loads` refused the body
    | StoreRejected(fault: StoreFault)
    | PublishFailed                                     // `put_events` raised
    | StoreUnavailable                                  // a `ClientError` for service reasons (throttling, an internal error)

  /** What a successful operation hands back as `body.body`. */
  datatype Reply =
    | Data(value: Value)                // a plain JSON value; Python's `None` is `Data(Null)`
    | Item(item: TypedItem)             // a low-level typed item, or `{}`
    | ItemList(items: seq<TypedItem>)   // a list of low-level typed items
    | WriteAck                          // the response of `put_item`, `delete_item` or `update_item`
    | Published(result: PutEventsResult)

  /** The JSON body of a response: `{message, body}` or `{message, errorMsg}`. */
  datatype Content = Success(message: string, body: Reply) | Failure(message: string, errorMsg: Error)

  datatype Response = Response(statusCode: int, content: Content)

  const FailureMessage: string := "Failed to perform operation"

  /** `f'Successfully finished operation: "{http_method}"'` */
  function SuccessMessage(httpMethod: string): string {
    "Successfully finished operation: \"" + httpMethod + "\""
  }

  /**
   * The handler's `try`/`except`: a value becomes a 200 response carrying it
   * under `message`, any exception a 500 response carrying its message.
   */
  function Envelope(message: string, r: Result<Reply, Error>): (resp: Response)
    ensures resp.statusCode == 200 <==> r.Ok?
    ensures resp.statusCode == 500 <==> r.Err?
    ensures r.Ok? ==> resp.content.Success? && resp.content.body == r.value
    ensures r.Err? ==> resp.content.Failure? && resp.content.errorMsg == r.error
  {
    match r
    case Ok(v) => Response(200, Success(message, v))
    case Err(e) => Response(500, Failure(FailureMessage, e))
  }

  /** `event.get('pathParameters') and name in event['pathParameters']`, and the value found. */
  function PathParameter(req: Request, name: string): (r: Option<string>)
    ensures r.Some? <==> req.pathParameters.Some? && name in req.pathParameters.value
  {
    match req.pathParameters
    case Some(m) => if name in m then Some(m[name]) else None
    case None => None
  }

  /** `event['pathParameters'][name]`: raises on a null parameter map and on a missing name. */
  function PathLookup(req: Request, name: string): (r: Result<string, Error>)
    ensures req.pathParameters.None? ==> r == Err(NoPathParameters)
    ensures req.pathParameters.Some? ==> r.Ok? == (name in req.pathParameters.value)
    ensures r.Err? ==> PathParameter(req, name).None?
    ensures r.Ok? ==> PathParameter(req, name) == Some(r.value)
  {
    match req.pathParameters
    case None => Err(NoPathParameters)
    case Some(m) => if name in m then Ok(m[name]) else Err(KeyNotFound(name))
  }

  /** `json.loads(event['body'])` */
  function ParseBody(req: Request): (r: Result<Value, Error>)
    ensures r.Ok? <==> req.body.Parsed?
    ensures r.Ok? ==> r.value == req.body.value
    ensures req.body.NoBody? ==> r == Err(KeyNotFound("body"))
  {
    match req.body
    case NoBody => Err(KeyNotFound("body"))
    case BadJson => Err(MalformedJson)
    case Parsed(v) => Ok(v)
  }

  /**
   * `put_item(Item=v)` on a resource-level table keyed by `keyName`: the item
   * must be a map whose key attribute is a non-empty string.
   */
  function ItemKey(v: Value, keyName: string): (r: Result<string, Error>)
    ensures r.Ok? <==> v.Obj? && Get(v.fields, keyName).Some? && ValidKey(Get(v.fields, keyName).value)
    ensures r.Ok? ==> Get(v.fields, keyName) == Some(Str(r.value)) && r.value != ""
  {
    if !v.Obj? then Err(StoreRejected(BadItem))
    else match Get(v.fields, keyName)
      case Some(Str(s)) => if s != "" then Ok(s) else Err(StoreRejected(BadKey))
      case _ => Err(StoreRejected(BadKey))
  }

  /** A dict result as the reply the handler sends. */
  function DataOf(r: Result<Dict, Error>): Result<Reply, Error> {
    match r
    case Ok(d) => Ok(Data(Obj(d)))
    case Err(e) => Err(e)
  }

  /** The dicts of a list as JSON values. */
  function Objs(ds: seq<Dict>): seq<Value> {
    seq(|ds|, i requires 0 <= i < |ds| => Obj(ds[i]))
  }
}
