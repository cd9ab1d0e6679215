/** JavaScript values as the request bodies, the stored documents and the
    model classes of CineVault see them. Only the distinctions the core's
    code makes are kept: falsiness, `typeof`, and the number/NaN split. */
module Js {
  import Text

  datatype Option<T> = None | Some(value: T)

  /** The time value of a JavaScript `Date`: milliseconds since the epoch,
      or the "Invalid Date" a failed conversion gives. */
  datatype Instante = At(ms: int) | InvalidDate

  /** A JavaScript value. Numbers are exact reals (no rounding, no -0 and
      no infinities); `Nested` stands for any other object or array, whose
      contents the core never inspects. */
  datatype JsValue =
    | Undefined
    | Null
    | Bool(b: bool)
    | Num(x: real)
    | NaN
    | Str(s: string)
    | Date(t: Instante)
    | Nested

  /** A value whose `typeof` is 'number'. */
  type JsNumber = v: JsValue | v.Num? || v.NaN? witness NaN

  /** A plain object: a request body or a stored document. */
  type Obj = map<string, JsValue>

  /** Property access `o.k`: a missing key reads as `undefined`. */
  function Get(o: Obj, k: string): JsValue {
    if k in o then o[k] else Undefined
  }

  /** JavaScript truthiness, the test behind `!x` and `x || y`. */
  predicate Truthy(v: JsValue) {
    match v
    case Undefined => false
    case Null => false
    case Bool(b) => b
    case Num(x) => x != 0.0
    case NaN => false
    case Str(s) => s != ""
    case Date(_) => true
    case Nested => true
  }

  /** `x || d`: the value itself when truthy, otherwise the default. */
  function OrElse(v: JsValue, d: JsValue): (r: JsValue)
    ensures Truthy(v) ==> r == v
    ensures !Truthy(v) ==> r == d
  {
    if Truthy(v) then v else d
  }

  /** `Number(v)` for the non-string values the validators coerce with
      `isNaN` and `<`; strings are parsed with `parseFloat` before any such
      comparison in the code modelled, so they are not accepted here. */
  function ToNumber(v: JsValue): (r: JsNumber)
    requires !v.Str?
    ensures v.Num? ==> r == v
    ensures v.Undefined? || v.NaN? || v.Nested? ==> r == NaN
  {
    match v
    case Undefined => NaN
    case Null => Num(0.0)
    case Bool(b) => if b then Num(1.0) else Num(0.0)
    case Num(x) => v
    case NaN => NaN
    case Date(t) => (match t case At(ms) => Num(ms as real) case InvalidDate => NaN)
    case Nested => NaN
  }

  /** The validators' "required string" test: a string with at least one
      character that is not white space. `FilledStringTrim` shows it is the
      negation of `!v || typeof v !== 'string' || v.trim() === ''`. */
  predicate FilledString(v: JsValue) {
    v.Str? && !Text.AllSpace(v.s)
  }

  lemma FilledStringTrim(v: JsValue)
    ensures FilledString(v) <==> Truthy(v) && v.Str? && Text.Trim(v.s) != ""
  {
    if v.Str? {
      assert Text.Trim(v.s) == [] <==> Text.AllSpace(v.s);
    }
  }

  /** The `{ isValid, errors }` object both model validators return. */
  datatype Validacao = Validacao(isValid: bool, errors: seq<string>)
}
