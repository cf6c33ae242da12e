/**
 * The JavaScript values an XML parser hands to the stock-response normaliser:
 * the object tree produced with namespace prefixes stripped. Property access
 * and truthiness follow JavaScript's rules for these kinds of value.
 */
module JsValues {
  import opened Optional

  datatype JsVal =
    | Undefined                       // an absent property
    | Null
    | Bool(b: bool)
    | Num(n: real)                    // NaN is not represented
    | Str(s: string)
    | Arr(elems: seq<JsVal>)
    | Obj(props: map<string, JsVal>)

  /** `undefined` or `null`: reading a property of such a value throws a TypeError. */
  predicate Nullish(v: JsVal) {
    v.Undefined? || v.Null?
  }

  /** The values `!v` holds for. */
  function Falsy(v: JsVal): (falsy: bool)
    ensures Nullish(v) ==> falsy
    ensures v.Arr? || v.Obj? ==> !falsy
    ensures v == Bool(false) || v == Num(0.0) || v == Str("") ==> falsy
    ensures falsy <==> Nullish(v) || v == Bool(false) || v == Num(0.0) || v == Str("")
  {
    match v
    case Undefined => true
    case Null => true
    case Bool(b) => !b
    case Num(n) => n == 0.0
    case Str(s) => s == ""
    case Arr(_) => false
    case Obj(_) => false
  }

  /**
   * `v[key]`: `None` when the access throws (the receiver is nullish);
   * otherwise the property, or `Undefined` when there is none. Strings,
   * numbers, booleans and arrays carry none of the keys the normaliser reads.
   */
  function Member(v: JsVal, key: string): (r: Option<JsVal>)
    ensures r.None? <==> Nullish(v)
    ensures v.Obj? && key in v.props ==> r == Some(v.props[key])
    ensures v.Obj? && key !in v.props ==> r == Some(Undefined)
    ensures r.Some? && r.value != Undefined ==> v.Obj? && key in v.props && v.props[key] == r.value
  {
    match v
    case Undefined => None
    case Null => None
    case Obj(props) => Some(if key in props then props[key] else Undefined)
    case _ => Some(Undefined)
  }

  /** `v.k0.k1...` read left to right: `None` as soon as one access throws. */
  function Path(v: JsVal, keys: seq<string>): (r: Option<JsVal>)
    ensures keys == [] ==> r == Some(v)
    ensures |keys| > 0 && Nullish(v) ==> r.None?
    ensures |keys| == 1 ==> r == Member(v, keys[0])
    decreases |keys|
  {
    if keys == [] then Some(v)
    else
      match Member(v, keys[0])
      case None => None
      case Some(w) => Path(w, keys[1..])
  }

  /** Reading `a` then `b` is reading `a + b`: a chain can be split anywhere. */
  lemma {:induction false} PathAppend(v: JsVal, a: seq<string>, b: seq<string>)
    ensures Path(v, a + b) == (match Path(v, a) case None => None case Some(w) => Path(w, b))
    decreases |a|
  {
    if a == [] {
      assert a + b == b;
    } else {
      assert (a + b)[0] == a[0] && (a + b)[1..] == a[1..] + b;
      match Member(v, a[0])
      case None =>
      case Some(w) => PathAppend(w, a[1..], b);
    }
  }
}
