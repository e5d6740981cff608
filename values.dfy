/** Values that flow between the host engine and the EvilCat plugin base:
    raw plugin parameters, meta-data fields, parsed parameters. */
module Values {
  import opened ColorModel

  datatype Option<+T> = None | Some(value: T) {
    function GetOr(default: T): T {
      match this
      case Some(v) => v
      case None => default
    }
  }

  /** The result of a JavaScript operation that may throw an Error with a message. */
  datatype Outcome<+T> = Ok(value: T) | Thrown(msg: string)

  /** The JavaScript values the plugin code inspects. Host coercions that this
      model does not compute (`Number(x)` on a string, `String(x)` on a
      non-string, `Math.floor` of such a number) are kept symbolically as
      `Unconverted(rule, source)`: the value the host derives from `source`
      under the named rule. Host tables never hold `Unconverted` values, so the
      parsers only ever receive the other kinds; `ParseBool` treats an
      `Unconverted` argument as a value of no known type. */
  datatype Value =
    | Undefined
    | Boolean(b: bool)
    | Integer(i: int)
    | Str(s: string)
    | ColorObj(c: Color)
    | Unconverted(rule: string, source: Value)
}
