/** The shape of a parsed JSON request body field, as the request schemas see it. */
module Request {

  /** Absent, a JSON string, or a value of another JSON type (number, null, object, ...). */
  datatype Field = Absent | Str(s: string) | OtherJson
}
