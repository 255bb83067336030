/**
 * Values shared by the auth service: the claim values a decoded token or a
 * custom-claims dictionary holds, Python's `==` on them, `dict.get`, and the
 * HTTP errors the dependencies raise.
 */
module AuthModel {
  import opened Wrappers

  /** A JSON value as it appears in a token payload or a claims dictionary. */
  datatype Value = Null | Bool(b: bool) | Int(i: int) | Str(s: string)

  /** The number a boolean or integer stands for in a Python comparison (`True == 1`). */
  function Number(v: Value): int
    requires v.Bool? || v.Int?
  {
    if v.Bool? then (if v.b then 1 else 0) else v.i
  }

  /**
   * Python's `==` on claim values: `None` equals only `None`, booleans and
   * integers compare as numbers, strings compare by contents.
   */
  predicate Equal(a: Value, b: Value) {
    match a
    case Null => b.Null?
    case Str(s) => b.Str? && b.s == s
    case _ => (b.Bool? || b.Int?) && Number(a) == Number(b)
  }

  /** An optional string field as a claim value: `None` is `null`. */
  function OptionValue(o: Option<string>): Value {
    if o.Some? then Str(o.value) else Null
  }

  /** `d.get(key)`. */
  function Get(d: map<string, Value>, key: string): (r: Option<Value>)
    ensures r.Some? <==> key in d
    ensures r.Some? ==> r.value == d[key]
  {
    if key in d then Some(d[key]) else None
  }

  /** An `HTTPException`: status code and detail. */
  datatype HttpError = HttpError(status: int, detail: string)

  const Unauthorized: int := 401
  const Forbidden: int := 403
  const InternalServerError: int := 500

  /** The role that bypasses every role and tenant check. */
  const Admin: string := "admin"

  // ------------------------------------------------------------------ lemmas

  /** `==` is an equivalence on claim values. */
  lemma EqualIsEquivalence(a: Value, b: Value, c: Value)
    ensures Equal(a, a)
    ensures Equal(a, b) ==> Equal(b, a)
    ensures Equal(a, b) && Equal(b, c) ==> Equal(a, c)
  {
  }

  /** A string equals exactly the same string, and `True` equals `1` but not `"1"`. */
  lemma EqualStrings(s: string, v: Value)
    ensures Equal(Str(s), v) <==> v == Str(s)
    ensures Equal(v, Str(s)) <==> v == Str(s)
    ensures Equal(Bool(true), Int(1)) && !Equal(Bool(true), Str("1")) && !Equal(Null, Bool(false))
  {
  }

  /** An optional string equals a value exactly when the value is that string, or `null` for `None`. */
  lemma OptionValueEqual(o: Option<string>, v: Value)
    ensures Equal(OptionValue(o), v) <==> (if o.Some? then v == Str(o.value) else v == Null)
  {
  }
}
