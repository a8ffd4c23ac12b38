/** Values as the webhook handler's JavaScript sees them after JSON parsing. */
module JsValues {

  /** A JSON property read by the handler: a string, `null`, or missing
      (`undefined`). Strict equality `===` between two such values is
      datatype equality. Other JSON types (numbers, objects) are not modelled. */
  datatype Prop = Undefined | Null | Str(s: string)

  /** What a template literal `${p}` produces for a property value. */
  function TemplateText(p: Prop): string
  {
    match p
    case Undefined => "undefined"
    case Null => "null"
    case Str(s) => s
  }
}
