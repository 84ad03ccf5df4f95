/**
 * The JavaScript values the plugin reads from its options and passes through
 * untouched (raw events, replies), with the three lodash helpers it relies on:
 * `_.get` for one property, `_.includes` for the ignore list and `_.merge` for
 * laying the caller's options over the defaults.
 */
module JsValues {

  /** A JavaScript value. Numbers are integers here: floating point and NaN are not modelled. */
  datatype JsValue =
    | Undefined
    | Null
    | Bool(b: bool)
    | Num(n: int)
    | Str(s: string)
    | Arr(elems: seq<JsValue>)
    | Obj(fields: map<string, JsValue>)

  /**
   * JavaScript truthiness, as used by `if (v)` and `v || w`: the falsy values
   * are exactly `undefined`, `null`, `false`, `0` and `""`.
   */
  predicate Truthy(v: JsValue)
    ensures Truthy(v) <==> v !in {Undefined, Null, Bool(false), Num(0), Str("")}
  {
    match v
    case Undefined => false
    case Null => false
    case Bool(b) => b
    case Num(n) => n != 0
    case Str(s) => s != ""
    case Arr(_) => true
    case Obj(_) => true
  }

  /** `a || b`: the left operand when it is truthy, otherwise the right one. */
  function Or(a: JsValue, b: JsValue): (r: JsValue)
    ensures r == a || r == b
    ensures Truthy(r) <==> Truthy(a) || Truthy(b)
    ensures Truthy(a) ==> r == a
    ensures !Truthy(a) ==> r == b
  {
    if Truthy(a) then a else b
  }

  /** Reading an own property of an object; a missing property reads as `undefined`. */
  function Get(obj: map<string, JsValue>, key: string): (r: JsValue)
    ensures key !in obj ==> r == Undefined
    ensures key in obj ==> r == obj[key]
    ensures r != Undefined ==> key in obj
  {
    if key in obj then obj[key] else Undefined
  }

  /** `sub` occurs in `s` starting at index `i`. */
  predicate MatchesAt(s: string, sub: string, i: int) {
    0 <= i && i + |sub| <= |s| && s[i..i + |sub|] == sub
  }

  /** The search behind `String.prototype.indexOf`, started at `from`. */
  function FirstMatchFrom(s: string, sub: string, from: nat): (r: int)
    requires from <= |s|
    decreases |s| - from
    ensures r == -1 || (from <= r && MatchesAt(s, sub, r))
    ensures r == -1 <==> forall i :: from <= i ==> !MatchesAt(s, sub, i)
    ensures r != -1 ==> forall i :: from <= i < r ==> !MatchesAt(s, sub, i)
  {
    if from + |sub| > |s| then -1
    else if s[from..from + |sub|] == sub then from
    else FirstMatchFrom(s, sub, from + 1)
  }

  /** `s.indexOf(sub)`: the first index where `sub` occurs in `s`, or -1. */
  function IndexOf(s: string, sub: string): (r: int)
    ensures r == -1 <==> forall i :: !MatchesAt(s, sub, i)
    ensures r != -1 ==> MatchesAt(s, sub, r) && forall i :: 0 <= i < r ==> !MatchesAt(s, sub, i)
  {
    FirstMatchFrom(s, sub, 0)
  }

  /**
   * `_.includes(collection, value)` for a string `value`: element membership
   * (SameValueZero) for an array, substring search for a string, membership
   * among the property values for an object, and false for everything else.
   */
  function Includes(collection: JsValue, value: string): (r: bool)
    ensures collection.Arr? ==> (r <==> Str(value) in collection.elems)
    ensures collection.Str? ==> (r <==> exists i :: MatchesAt(collection.s, value, i))
    ensures collection.Obj? ==> (r <==> Str(value) in collection.fields.Values)
    ensures !(collection.Arr? || collection.Str? || collection.Obj?) ==> !r
  {
    match collection
    case Arr(xs) => Str(value) in xs
    case Str(s) => IndexOf(s, value) != -1
    case Obj(m) => Str(value) in m.Values
    case _ => false
  }

  /**
   * `_.merge({}, defaults, options)` read one level deep: an option that is not
   * `undefined` replaces the default, an `undefined` one leaves the default.
   */
  function Merge(defaults: map<string, JsValue>, options: map<string, JsValue>): (m: map<string, JsValue>)
    ensures forall k :: Get(m, k) == (if Get(options, k) != Undefined then Get(options, k) else Get(defaults, k))
    ensures m.Keys == defaults.Keys + options.Keys
  {
    map k | k in defaults.Keys + options.Keys ::
      if k in options && options[k] != Undefined then options[k]
      else if k in defaults then defaults[k]
      else Undefined
  }

  /** The empty string occurs in every string, so a string collection includes it. */
  lemma EmptyValueInEveryString(s: string)
    ensures Includes(Str(s), "")
  {
  }
}
