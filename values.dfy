/**
 * Values as the notification handlers see them: optional and failing results,
 * and the string-typed fields of a Firestore record or of a call payload.
 */
module Values {

  datatype Option<T> = None | Some(value: T)

  datatype Result<T, E> = Ok(value: T) | Err(error: E) {
    function ToOption(): Option<T>
    {
      if Ok? then Some(value) else None
    }
  }

  /** A string-typed record field: absent (`undefined`), explicitly `null`, or a string. */
  datatype Field = Undefined | Null | Str(s: string)

  /** JavaScript truthiness of a field; `!f` in the handlers is its negation. */
  predicate Truthy(f: Field)
  {
    f.Str? && f.s != ""
  }

  /** The text a template literal `${f}` produces for the field. */
  function Render(f: Field): string
  {
    match f
    case Undefined => "undefined"
    case Null => "null"
    case Str(s) => s
  }
}
