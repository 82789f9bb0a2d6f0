/**
 * The `UpdateExpression` builder of both product handlers, and, as its
 * partner, what DynamoDB reads out of the request it builds: the expression
 * parsed back into placeholder pairs, the placeholders resolved through the
 * name and value maps, and the assignments applied to an item.
 */
module UpdateExpression {
  import opened Wrappers
  import opened Json
  import opened Attributes

  /** The parameters `update_product` passes to `update_item` besides the key. */
  datatype UpdateRequest = UpdateRequest(
    expression: string,
    names: map<string, string>,
    values: map<string, AttrValue>)

  /** One attribute assignment: attribute name and typed value. */
  type Assignment = (string, AttrValue)

  function Digit(d: nat): (c: char)
    requires d < 10
    ensures '0' <= c <= '9'
  {
    (48 + d) as char
  }

  /** `f"{n}"`: the decimal digits of `n`. */
  function NatText(n: nat): (t: string)
    ensures |t| > 0
    ensures forall i | 0 <= i < |t| :: '0' <= t[i] <= '9'
  {
    if n < 10 then [Digit(n)] else NatText(n / 10) + [Digit(n % 10)]
  }

  /** Different numbers have different decimal texts. */
  lemma {:induction false} NatTextInjective(a: nat, b: nat)
    requires a != b
    ensures NatText(a) != NatText(b)
    decreases a
  {
    if a < 10 && b < 10 {
      assert NatText(a)[0] == Digit(a) && NatText(b)[0] == Digit(b);
    } else if a < 10 {
      assert |NatText(b)| == |NatText(b / 10)| + 1 >= 2;
    } else if b < 10 {
      assert |NatText(a)| == |NatText(a / 10)| + 1 >= 2;
    } else {
      var ta, tb := NatText(a / 10), NatText(b / 10);
      assert NatText(a) == ta + [Digit(a % 10)] && NatText(b) == tb + [Digit(b % 10)];
      if a / 10 == b / 10 {
        assert NatText(a)[|ta|] == Digit(a % 10) && NatText(b)[|tb|] == Digit(b % 10);
      } else if |ta| == |tb| {
        NatTextInjective(a / 10, b / 10);
        assert ta == NatText(a)[..|ta|] && tb == NatText(b)[..|tb|];
      }
    }
  }

  /** The attribute-name placeholder `#key{i}`. */
  function KeyName(i: nat): string {
    "#key" + NatText(i)
  }

  /** The attribute-value placeholder `:value{i}`. */
  function ValueName(i: nat): string {
    ":value" + NatText(i)
  }

  /** Distinct indices get distinct placeholders. */
  lemma PlaceholdersDiffer(i: nat, j: nat)
    requires i != j
    ensures KeyName(i) != KeyName(j) && ValueName(i) != ValueName(j)
  {
    NatTextInjective(i, j);
    assert NatText(i) == KeyName(i)[4..] && NatText(j) == KeyName(j)[4..];
    assert NatText(i) == ValueName(i)[6..] && NatText(j) == ValueName(j)[6..];
  }

  /** `", ".join(parts)` */
  function Join(parts: seq<string>): string {
    if parts == [] then ""
    else if |parts| == 1 then parts[0]
    else parts[0] + ", " + Join(parts[1..])
  }

  /** The text `lhs = rhs` of one assignment. */
  function Render(p: (string, string)): string {
    p.0 + " = " + p.1
  }

  /** The placeholder pairs `(#key{i}, :value{i})` for `i` in `range(n)`. */
  function Placeholders(n: nat): (ps: seq<(string, string)>)
    ensures |ps| == n
  {
    seq(n, i requires 0 <= i < n => (KeyName(i), ValueName(i)))
  }

  /** `{f"#key{i}": key for i, key in enumerate(keys)}` over the first `n` entries. */
  function NameMap(body: Dict, n: nat): (m: map<string, string>)
    requires n <= |body|
    ensures forall i | 0 <= i < n :: KeyName(i) in m && m[KeyName(i)] == body[i].key
    decreases n
  {
    if n == 0 then map[]
    else
      var m := NameMap(body, n - 1);
      assert forall i | 0 <= i < n - 1 :: KeyName(i) != KeyName(n - 1) by {
        forall i | 0 <= i < n - 1 ensures KeyName(i) != KeyName(n - 1) { PlaceholdersDiffer(i, n - 1); }
      }
      m[KeyName(n - 1) := body[n - 1].key]
  }

  /** `{f":value{i}": typed(v) for i, (k, v) in enumerate(body.items())}` over the first `n` entries. */
  function ValueMap(body: Dict, n: nat): (m: map<string, AttrValue>)
    requires n <= |body|
    ensures forall i | 0 <= i < n :: ValueName(i) in m && m[ValueName(i)] == Typed(body[i].value)
    decreases n
  {
    if n == 0 then map[]
    else
      var m := ValueMap(body, n - 1);
      assert forall i | 0 <= i < n - 1 :: ValueName(i) != ValueName(n - 1) by {
        forall i | 0 <= i < n - 1 ensures ValueName(i) != ValueName(n - 1) { PlaceholdersDiffer(i, n - 1); }
      }
      m[ValueName(n - 1) := Typed(body[n - 1].value)]
  }

  /** `"SET " + ", ".join(f"#key{i} = :value{i}" for i in range(n))` */
  function Expression(n: nat): string {
    var ps := Placeholders(n);
    "SET " + Join(seq(|ps|, k requires 0 <= k < |ps| => Render(ps[k])))
  }

  /** The request `update_product` builds from the body's entries, in order. */
  function Build(body: Dict): UpdateRequest {
    UpdateRequest(Expression(|body|), NameMap(body, |body|), ValueMap(body, |body|))
  }

  // ---- Reading a request the way DynamoDB does -------------------------------

  /** No space and no comma: what may stand on either side of ` = `. */
  predicate Plain(t: string) {
    forall i | 0 <= i < |t| :: t[i] != ' ' && t[i] != ','
  }

  /** The length of the token at the start of `s`: the characters before a space or a comma. */
  function TokenLength(s: string): (n: nat)
    ensures n <= |s|
  {
    if s == [] || s[0] == ' ' || s[0] == ',' then 0 else 1 + TokenLength(s[1..])
  }

  /** Reads `lhs = rhs, lhs = rhs, ...` back into its pairs of placeholders. */
  function ParseAssignments(s: string): Option<seq<(string, string)>>
    decreases |s|
  {
    var i := TokenLength(s);
    if i == 0 || |s| < i + 3 || s[i..i + 3] != " = " then None
    else
      var r := s[i + 3..];
      var j := TokenLength(r);
      if j == 0 then None
      else if j == |r| then Some([(s[..i], r)])
      else if |r| >= j + 2 && r[j..j + 2] == ", " then
        match ParseAssignments(r[j + 2..])
        case None => None
        case Some(rest) => Some([(s[..i], r[..j])] + rest)
      else None
  }

  /** Reads a `SET` expression; anything else, an empty list included, is refused. */
  function ParseSet(expression: string): Option<seq<(string, string)>> {
    if |expression| >= 4 && expression[..4] == "SET " then ParseAssignments(expression[4..])
    else None
  }

  /** Replaces each placeholder pair by the attribute name and value it stands for. */
  function Resolve(ps: seq<(string, string)>, names: map<string, string>, values: map<string, AttrValue>)
    : Option<seq<Assignment>>
  {
    if ps == [] then Some([])
    else if ps[0].0 in names && ps[0].1 in values then
      match Resolve(ps[1..], names, values)
      case None => None
      case Some(rest) => Some([(names[ps[0].0], values[ps[0].1])] + rest)
    else None
  }

  /** The assignments an update request denotes, in order; None when DynamoDB cannot read it. */
  function Assignments(req: UpdateRequest): Option<seq<Assignment>> {
    match ParseSet(req.expression)
    case None => None
    case Some(ps) => Resolve(ps, req.names, req.values)
  }

  /** The attribute names an assignment list writes, in order. */
  function Targets(asg: seq<Assignment>): seq<string> {
    seq(|asg|, i requires 0 <= i < |asg| => asg[i].0)
  }

  /** DynamoDB refuses an update that writes one attribute twice or writes the key attribute. */
  predicate Acceptable(asg: seq<Assignment>, keyName: string) {
    && (forall i, j | 0 <= i < j < |asg| :: asg[i].0 != asg[j].0)
    && keyName !in Targets(asg)
  }

  /** The assignments a body's entries call for: each key with its typed value, in body order. */
  function Intended(body: Dict): (asg: seq<Assignment>)
    ensures Targets(asg) == Keys(body)
  {
    seq(|body|, i requires 0 <= i < |body| => (body[i].key, Typed(body[i].value)))
  }

  /** A body with distinct keys calls for assignments with distinct targets. */
  lemma IntendedDistinct(body: Dict)
    requires Distinct(body)
    ensures forall i, j | 0 <= i < j < |body| :: Intended(body)[i].0 != Intended(body)[j].0
  {
  }

  // ---- The builder and the reader agree --------------------------------------

  lemma {:induction false} TokenLengthOf(t: string, rest: string)
    requires Plain(t)
    requires rest == [] || rest[0] == ' ' || rest[0] == ','
    ensures TokenLength(t + rest) == |t|
  {
    if t == [] {
      assert t + rest == rest;
    } else {
      assert (t + rest)[1..] == t[1..] + rest;
      TokenLengthOf(t[1..], rest);
    }
  }

  /** Rendering non-empty plain pairs and parsing the text gives the pairs back. */
  lemma {:induction false} ParseRendered(ps: seq<(string, string)>)
    requires |ps| > 0
    requires forall k | 0 <= k < |ps| :: ps[k].0 != [] && ps[k].1 != [] && Plain(ps[k].0) && Plain(ps[k].1)
    ensures ParseAssignments(Join(seq(|ps|, k requires 0 <= k < |ps| => Render(ps[k])))) == Some(ps)
  {
    var parts := seq(|ps|, k requires 0 <= k < |ps| => Render(ps[k]));
    var a, b := ps[0].0, ps[0].1;
    var s := Join(parts);
    var tail := if |ps| == 1 then "" else ", " + Join(parts[1..]);
    assert s == a + (" = " + (b + tail));
    TokenLengthOf(a, " = " + (b + tail));
    assert s[..|a|] == a;
    assert s[|a|..|a| + 3] == " = ";
    var r := s[|a| + 3..];
    assert r == b + tail;
    TokenLengthOf(b, tail);
    if |ps| == 1 {
      assert r == b;
      assert ps == [(a, b)];
    } else {
      var rest := ps[1..];
      assert parts[1..] == seq(|rest|, k requires 0 <= k < |rest| => Render(rest[k]));
      ParseRendered(rest);
      assert r[..|b|] == b;
      assert r[|b|..|b| + 2] == ", ";
      assert r[|b| + 2..] == Join(parts[1..]);
      assert [(a, b)] + rest == ps;
    }
  }

  lemma {:induction false} ResolvePointwise(ps: seq<(string, string)>, names: map<string, string>,
                                            values: map<string, AttrValue>, out: seq<Assignment>)
    requires |ps| == |out|
    requires forall k | 0 <= k < |ps| ::
      ps[k].0 in names && names[ps[k].0] == out[k].0 && ps[k].1 in values && values[ps[k].1] == out[k].1
    ensures Resolve(ps, names, values) == Some(out)
  {
    if ps != [] {
      ResolvePointwise(ps[1..], names, values, out[1..]);
      assert [out[0]] + out[1..] == out;
    }
  }

  /**
   * The request built from a body denotes exactly the body's entries, each
   * typed, in body order; an empty body yields `"SET "`, which DynamoDB
   * cannot read.
   */
  lemma BuildDenotes(body: Dict)
    ensures |body| == 0 ==> Assignments(Build(body)) == None
    ensures |body| > 0 ==> Assignments(Build(body)) == Some(Intended(body))
  {
    var req := Build(body);
    var ps := Placeholders(|body|);
    var text := Join(seq(|ps|, k requires 0 <= k < |ps| => Render(ps[k])));
    assert req.expression == "SET " + text;
    assert req.expression[..4] == "SET " && req.expression[4..] == text;
    if |body| == 0 {
      assert text == "";
    } else {
      forall k | 0 <= k < |ps| ensures ps[k].0 != [] && ps[k].1 != [] && Plain(ps[k].0) && Plain(ps[k].1) {
        assert ps[k] == (KeyName(k), ValueName(k));
      }
      ParseRendered(ps);
      ResolvePointwise(ps, req.names, req.values, Intended(body));
    }
  }

  // ---- Applying the assignments ---------------------------------------------

  /** DynamoDB's `SET` on an item of the low-level typed form. */
  function ApplyTyped(item: TypedItem, asg: seq<Assignment>): TypedItem
    decreases |asg|
  {
    if asg == [] then item else ApplyTyped(item[asg[0].0 := asg[0].1], asg[1..])
  }

  /** DynamoDB's `SET` on an item of a resource-level table, which stores each typed value as handed to it. */
  function ApplyStored(item: Dict, asg: seq<Assignment>): Dict
    decreases |asg|
  {
    if asg == [] then item else ApplyStored(Set(item, asg[0].0, AsStored(asg[0].1)), asg[1..])
  }

  /** After a `SET` with distinct targets, each target holds its value and nothing else changed. */
  lemma {:induction false} ApplyTypedEffect(item: TypedItem, asg: seq<Assignment>)
    requires forall i, j | 0 <= i < j < |asg| :: asg[i].0 != asg[j].0
    ensures forall i | 0 <= i < |asg| :: asg[i].0 in ApplyTyped(item, asg) && ApplyTyped(item, asg)[asg[i].0] == asg[i].1
    ensures forall k | k !in Targets(asg) :: (k in ApplyTyped(item, asg) <==> k in item)
    ensures forall k | k !in Targets(asg) && k in item :: ApplyTyped(item, asg)[k] == item[k]
    decreases |asg|
  {
    if asg != [] {
      var next := item[asg[0].0 := asg[0].1];
      ApplyTypedEffect(next, asg[1..]);
      assert Targets(asg) == [asg[0].0] + Targets(asg[1..]);
      forall i | 0 <= i < |asg| ensures asg[i].0 in ApplyTyped(item, asg) && ApplyTyped(item, asg)[asg[i].0] == asg[i].1 {
        if i == 0 {
          assert asg[0].0 !in Targets(asg[1..]) by {
            forall m | 0 <= m < |asg| - 1 ensures Targets(asg[1..])[m] != asg[0].0 {
              assert Targets(asg[1..])[m] == asg[m + 1].0;
            }
          }
        } else {
          assert asg[1..][i - 1] == asg[i];
        }
      }
    }
  }

  /** The same on a resource-level item, read with `get`. */
  lemma {:induction false} ApplyStoredEffect(item: Dict, asg: seq<Assignment>)
    requires forall i, j | 0 <= i < j < |asg| :: asg[i].0 != asg[j].0
    ensures forall i | 0 <= i < |asg| :: Get(ApplyStored(item, asg), asg[i].0) == Some(AsStored(asg[i].1))
    ensures forall k | k !in Targets(asg) :: Get(ApplyStored(item, asg), k) == Get(item, k)
    decreases |asg|
  {
    if asg != [] {
      var next := Set(item, asg[0].0, AsStored(asg[0].1));
      ApplyStoredEffect(next, asg[1..]);
      assert Targets(asg) == [asg[0].0] + Targets(asg[1..]);
      forall i | 0 <= i < |asg| ensures Get(ApplyStored(item, asg), asg[i].0) == Some(AsStored(asg[i].1)) {
        if i == 0 {
          assert asg[0].0 !in Targets(asg[1..]) by {
            forall m | 0 <= m < |asg| - 1 ensures Targets(asg[1..])[m] != asg[0].0 {
              assert Targets(asg[1..])[m] == asg[m + 1].0;
            }
          }
        } else {
          assert asg[1..][i - 1] == asg[i];
        }
      }
    }
  }

  /**
   * The request built from a body with distinct keys, once DynamoDB applies
   * it to a typed item, sets each body key to its typed value and leaves every
   * other attribute as it was.
   */
  lemma UpdateSetsBodyTyped(body: Dict, item: TypedItem)
    requires Distinct(body) && |body| > 0
    ensures Assignments(Build(body)).Some?
    ensures var after := ApplyTyped(item, Assignments(Build(body)).value);
      && (forall i | 0 <= i < |body| :: body[i].key in after && after[body[i].key] == Typed(body[i].value))
      && (forall k | k !in Keys(body) :: (k in after <==> k in item) && (k in item ==> after[k] == item[k]))
  {
    BuildDenotes(body);
    var asg := Intended(body);
    IntendedDistinct(body);
    ApplyTypedEffect(item, asg);
    forall i | 0 <= i < |body| ensures body[i].key == asg[i].0 && Typed(body[i].value) == asg[i].1 { }
  }

  /** The same for a resource-level item: each body key holds its typed value as stored. */
  lemma UpdateSetsBodyStored(body: Dict, item: Dict)
    requires Distinct(body) && |body| > 0
    ensures Assignments(Build(body)).Some?
    ensures var after := ApplyStored(item, Assignments(Build(body)).value);
      && (forall i | 0 <= i < |body| :: Get(after, body[i].key) == Some(AsStored(Typed(body[i].value))))
      && (forall k | k !in Keys(body) :: Get(after, k) == Get(item, k))
  {
    BuildDenotes(body);
    var asg := Intended(body);
    IntendedDistinct(body);
    ApplyStoredEffect(item, asg);
    forall i | 0 <= i < |body| ensures body[i].key == asg[i].0 && Typed(body[i].value) == asg[i].1 { }
  }
}
