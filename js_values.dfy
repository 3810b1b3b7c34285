/** The loosely typed values the services receive from request bodies,
    and the JavaScript tests (`!x`, `typeof`, `Array.isArray`,
    `instanceof Date`, property access) they apply to them. */
module JsValues {

  /** A JavaScript value as far as the validators can tell them apart.
      Numbers are finite reals plus NaN; a Date object is opaque. */
  datatype JsVal =
    | Undef
    | Null
    | Bool(b: bool)
    | Num(n: real)
    | NaN
    | Str(s: string)
    | Arr(elems: seq<JsVal>)
    | DateV
    | Obj(fields: map<string, JsVal>)

  /** `!v` holds: undefined, null, false, 0, NaN and "" are falsy;
      every array (also `[]`), date and object is truthy. */
  predicate Falsy(v: JsVal)
  {
    v == Undef || v == Null || v == Bool(false) || v == Num(0.0) || v == NaN || v == Str("")
  }

  /** `typeof v === "number"` */
  predicate IsNumber(v: JsVal)
  {
    v.Num? || v.NaN?
  }

  /** `v == null`, that is `v === undefined || v === null` */
  predicate IsNullish(v: JsVal)
  {
    v.Undef? || v.Null?
  }

  /** `v.key` for a value that is not null or undefined: an own field of an
      object, and `undefined` for every key the doctor record uses when the
      value is a primitive or an array. */
  function Get(v: JsVal, key: string): JsVal
  {
    if v.Obj? && key in v.fields then v.fields[key] else Undef
  }
}
