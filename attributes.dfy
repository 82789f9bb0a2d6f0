/**
 * DynamoDB's low-level attribute typing, as the product handlers write it:
 * `{'S': v} if isinstance(v, str) else {'N': str(v)}`.
 */
module Attributes {
  import opened Json

  /**
   * A typed attribute value. `N` keeps the value `v` itself where DynamoDB
   * receives its text `str(v)`.
   */
  datatype AttrValue = S(s: string) | N(n: Value)

  /** An item in the low-level typed form: attribute name to typed value. */
  type TypedItem = map<string, AttrValue>

  /** The JSON value a typed attribute stands for. */
  function Untyped(a: AttrValue): Value {
    match a
    case S(s) => Str(s)
    case N(v) => v
  }

  /** The typing rule: strings become `S`, every other value becomes `N`. */
  function Typed(v: Value): (a: AttrValue)
    ensures a.S? <==> v.Str?
    ensures Untyped(a) == v
  {
    if v.Str? then S(v.s) else N(v)
  }

  /** DynamoDB accepts an `N` attribute only when its text is a number. */
  predicate Storable(a: AttrValue) {
    a.N? ==> a.n.Num?
  }

  /** `{k: typed(v) for k, v in d.items()}` */
  function TypedItemOf(d: Dict): (t: TypedItem)
    ensures forall k :: k in t <==> k in Keys(d)
    ensures forall k | k in t :: Get(d, k).Some? && Untyped(t[k]) == Get(d, k).value
  {
    map k | k in Keys(d) :: Typed(Get(d, k).value)
  }

  /**
   * What the resource-level table stores when handed a typed value: the
   * one-entry map `{'S': s}` or `{'N': ...}` itself.
   */
  function AsStored(a: AttrValue): Value {
    match a
    case S(s) => Obj([Field("S", Str(s))])
    case N(v) => Obj([Field("N", v)])
  }
}
