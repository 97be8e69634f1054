/**
 * JSON values as the frontend receives and sends them: response bodies after
 * `response.json()`, and the objects the route handlers serialise. Numbers
 * are integers here; member access, JavaScript truthiness and the dropping
 * of `undefined` members by `JSON.stringify` are stated once, below.
 */
module Json {
  import opened Wrappers
  import opened Text
  import opened Dicts

  datatype Json =
    | Null
    | Bool(b: bool)
    | Num(n: int)
    | Str(s: string)
    | Arr(elems: seq<Json>)
    | Obj(members: Dict<Json>)

  /**
   * `v?.key`: the member of an object, or `undefined` (`None`) when the key
   * is missing or `v` is not an object.
   */
  function Member(v: Json, key: string): (r: Option<Json>)
    ensures r.Some? ==> v.Obj? && (key, r.value) in v.members
    ensures v.Obj? ==> (r.None? <==> key !in Keys(v.members))
  {
    if v.Obj? then Lookup(v.members, key) else None
  }

  /** `v?.key` where `v` may itself be `undefined`. */
  function MemberOf(v: Option<Json>, key: string): (r: Option<Json>)
    ensures r.Some? ==> v.Some? && v.value.Obj?
  {
    if v.Some? then Member(v.value, key) else None
  }

  /** JavaScript truthiness of a JSON value. */
  predicate Truthy(v: Json) {
    match v
    case Null => false
    case Bool(b) => b
    case Num(n) => n != 0
    case Str(s) => s != ""
    case Arr(_) => true
    case Obj(_) => true
  }

  /** Truthiness of a possibly `undefined` value. */
  predicate TruthyOpt(v: Option<Json>) {
    v.Some? && Truthy(v.value)
  }

  /** `v || fallback`. */
  function OrElse(v: Option<Json>, fallback: Json): (r: Json)
    ensures TruthyOpt(v) ==> r == v.value
    ensures !TruthyOpt(v) ==> r == fallback
  {
    if TruthyOpt(v) then v.value else fallback
  }

  /** Every object member is present; `None` marks a member set to `undefined`. */
  function Lift(d: Dict<Json>): (r: Dict<Option<Json>>)
    ensures |r| == |d| && Keys(r) == Keys(d)
    ensures forall i :: 0 <= i < |d| ==> r[i] == (d[i].0, Some(d[i].1))
  {
    seq(|d|, i requires 0 <= i < |d| => (d[i].0, Some(d[i].1)))
  }

  /** `JSON.stringify` of an object: members whose value is `undefined` are dropped, the rest kept in order. */
  function Stringified(d: Dict<Option<Json>>): (r: Dict<Json>)
    ensures |r| <= |d|
    decreases |d|
  {
    if d == [] then []
    else if d[0].1.None? then Stringified(d[1..])
    else [(d[0].0, d[0].1.value)] + Stringified(d[1..])
  }

  /** A member survives serialisation exactly when it is present and not `undefined`. */
  lemma {:induction false} StringifiedLookup(d: Dict<Option<Json>>, k: string)
    requires UniqueKeys(d)
    ensures Lookup(Stringified(d), k) == if Lookup(d, k).Some? then Lookup(d, k).value else None
    decreases |d|
  {
    if d != [] {
      var rest := d[1..];
      assert UniqueKeys(rest);
      StringifiedLookup(rest, k);
      if d[0].0 == k {
        assert k !in Keys(rest) by {
          forall i | 0 <= i < |rest| ensures Keys(rest)[i] != k {
            assert rest[i] == d[i + 1];
          }
        }
      }
    }
  }

  /** Serialising an object whose members are all defined gives the object back. */
  lemma {:induction false} StringifiedLift(d: Dict<Json>)
    ensures Stringified(Lift(d)) == d
    decreases |d|
  {
    if d != [] {
      assert Lift(d)[1..] == Lift(d[1..]);
      StringifiedLift(d[1..]);
    }
  }

  /** `${v}`: how a template literal prints a value; an array prints its elements joined by commas. */
  function TemplateText(v: Json): (text: string)
    ensures v.Str? ==> text == v.s
    decreases v, 1
  {
    match v
    case Null => "null"
    case Bool(b) => if b then "true" else "false"
    case Num(n) => IntToString(n)
    case Str(s) => s
    case Arr(elems) => ElementsText(v, elems)
    case Obj(_) => "[object Object]"
  }

  /** The elements of the array `parent` from `elems` on, joined by commas; `null` prints as nothing. */
  function ElementsText(parent: Json, elems: seq<Json>): string
    requires forall e :: e in elems ==> e < parent
    decreases parent, 0, |elems|
  {
    if elems == [] then ""
    else
      assert elems[0] in elems;
      assert forall e :: e in elems[1..] ==> e in elems;
      var first := if elems[0] == Null then "" else TemplateText(elems[0]);
      if |elems| == 1 then first else first + "," + ElementsText(parent, elems[1..])
  }
}
