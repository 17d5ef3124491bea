/**
 * The JavaScript values that flow through the field cache: field data, backend
 * responses and GraphQL variables, together with the JSON round trip that the
 * durable medium applies to everything it stores.
 */
module Values {

  datatype Option<+T> = None | Some(value: T)

  datatype Result<+T, +E> = Success(value: T) | Failure(error: E)

  /** An `Error` object; only its message is observable to the cache. */
  datatype Error = Error(message: string)

  /**
   * A JavaScript value. `Undefined` is the value of a property that is not
   * there, so an object property set to `undefined` and a missing property
   * read the same. Numbers are integers (the cache stores millisecond
   * timestamps, ranks and scores).
   */
  datatype Value =
    | Undefined
    | Null
    | Bool(b: bool)
    | Num(n: int)
    | Str(s: string)
    | Arr(items: seq<Value>)
    | Obj(props: map<string, Value>)

  /**
   * `v[key]` for an object: a missing property reads as `undefined`. Any
   * other value reads as having no properties (array indices and `length`
   * are not modelled).
   */
  function Prop(v: Value, key: string): (r: Value)
    ensures v.Obj? && key in v.props ==> r == v.props[key]
    ensures !(v.Obj? && key in v.props) ==> r == Undefined
  {
    if v.Obj? && key in v.props then v.props[key] else Undefined
  }

  /**
   * `v[key]` for an object, `undefined` or `null`: reading a property of
   * `undefined` or `null` throws a TypeError, an object yields `Prop(v, key)`.
   */
  function Member(v: Value, key: string): (r: Result<Value, Error>)
    ensures r.Failure? <==> v == Undefined || v == Null
    ensures r.Success? ==> r.value == Prop(v, key)
  {
    if v == Undefined || v == Null then Failure(Error("Cannot read property '" + key + "' of " + (if v == Null then "null" else "undefined")))
    else Success(Prop(v, key))
  }

  /** True of values that JSON can represent exactly: no `undefined` anywhere. */
  predicate IsJson(v: Value) {
    match v
    case Undefined => false
    case Arr(items) => forall i :: 0 <= i < |items| ==> IsJson(items[i])
    case Obj(props) => forall k :: k in props ==> IsJson(props[k])
    case _ => true
  }

  /**
   * `JSON.parse(JSON.stringify(v))` for a value stored as the property of an
   * object: an `undefined` property is dropped (and so reads back as
   * `undefined`), an `undefined` array element becomes `null`.
   */
  function Normalize(v: Value): (r: Value)
    ensures v == Undefined <==> r == Undefined
  {
    match v
    case Arr(items) => Arr(seq(|items|, i requires 0 <= i < |items| => if items[i] == Undefined then Null else Normalize(items[i])))
    case Obj(props) => Obj(map k | k in props && props[k] != Undefined :: Normalize(props[k]))
    case _ => v
  }

  /** What JSON keeps of a value: everything below the top holds no `undefined`. */
  lemma {:induction false} NormalizeIsJson(v: Value)
    requires v != Undefined
    ensures IsJson(Normalize(v))
  {
    match v
    case Arr(items) =>
      forall i | 0 <= i < |items| ensures IsJson(Normalize(v).items[i]) {
        if items[i] != Undefined { NormalizeIsJson(items[i]); }
      }
    case Obj(props) =>
      forall k | k in props && props[k] != Undefined ensures IsJson(Normalize(props[k])) {
        NormalizeIsJson(props[k]);
      }
    case _ =>
  }

  /** A value JSON can represent survives the round trip unchanged. */
  lemma {:induction false} NormalizeKeepsJson(v: Value)
    requires IsJson(v)
    ensures Normalize(v) == v
  {
    match v
    case Arr(items) =>
      var r := Normalize(v).items;
      forall i | 0 <= i < |items| ensures r[i] == items[i] {
        NormalizeKeepsJson(items[i]);
      }
      assert r == items;
    case Obj(props) =>
      var r := Normalize(v).props;
      forall k | k in props ensures k in r && r[k] == props[k] {
        NormalizeKeepsJson(props[k]);
      }
      assert r == props;
    case _ =>
  }

  /** Storing a value that was read back from the medium stores it unchanged. */
  lemma NormalizeIdempotent(v: Value)
    ensures Normalize(Normalize(v)) == Normalize(v)
  {
    if v != Undefined {
      NormalizeIsJson(v);
      NormalizeKeepsJson(Normalize(v));
    }
  }

  /** `parts.join(sep)`: the parts in order, `sep` between neighbours. */
  function Join(parts: seq<string>, sep: string): (r: string)
    ensures |parts| == 0 ==> r == ""
    ensures |parts| == 1 ==> r == parts[0]
    ensures |parts| > 0 ==> parts[0] <= r
    ensures |parts| > 1 ==> |r| >= |sep| + |parts[|parts| - 1]| && r[|r| - |sep| - |parts[|parts| - 1]|..] == sep + parts[|parts| - 1]
  {
    if |parts| == 0 then ""
    else if |parts| == 1 then parts[0]
    else Join(parts[..|parts| - 1], sep) + sep + parts[|parts| - 1]
  }

  /** Joining one more part appends the separator and that part: parts are joined in order. */
  lemma JoinAppend(parts: seq<string>, p: string, sep: string)
    requires |parts| > 0
    ensures Join(parts + [p], sep) == Join(parts, sep) + sep + p
  {
    assert (parts + [p])[..|parts|] == parts;
  }
}
