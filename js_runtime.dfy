/** The dynamic values psynth.js receives as constructor parameters, and the
    JavaScript built-ins it applies to them. `decodeURIComponent`,
    `encodeURIComponent`, `Number(text)` and `String(number)` are foreign to
    the model: they are inputs, bundled in a `Js` record, and the laws the
    model relies on (`Entities.DecodeLaw`, `Entities.ReadsBack`) are required
    where they are used. */
module JsRuntime {

  /** A parameter field as JavaScript sees it: absent, text, or a number.
      Numbers are reals; NaN and the infinities are not represented. */
  datatype Param = Undefined | Str(s: string) | Num(n: real)

  /** The foreign functions of the JavaScript runtime. */
  datatype Js = Js(
    decode: string -> string,        // decodeURIComponent on a string
    encode: string -> string,        // encodeURIComponent on a string
    parseNumber: string -> real,     // Number(s) on a string
    numberText: real -> string)      // String(n), also ''+n

  /** `v === undefined || v === "default"`: the test every constructor
      applies before substituting a fixed default. */
  predicate IsDefault(v: Param)
  {
    v == Undefined || v == Str("default")
  }

  /** String conversion: the text `decodeURIComponent` sees, and also the
      property name `k in obj` and `obj[k]` use for the value `k`. */
  function Text(js: Js, v: Param): string
  {
    match v
    case Undefined => "undefined"
    case Str(s) => s
    case Num(n) => js.numberText(n)
  }

  /** `decodeURIComponent(v)`. */
  function Decode(js: Js, v: Param): string
  {
    js.decode(Text(js, v))
  }

  /** `Number(v)`. `Number(undefined)` and `Number("undefined")` are both NaN,
      so the absent case goes through the same conversion of its text. */
  function Number(js: Js, v: Param): (r: real)
    ensures v.Num? ==> r == v.n
  {
    match v
    case Num(n) => n
    case _ => js.parseNumber(Text(js, v))
  }
}
