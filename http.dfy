/** The JSON values and error responses the HTTP handlers exchange. */
module Http {

  /**
   * A JSON value as the handlers see it. Only strings and `null` are ever
   * compared or defaulted by the handlers; every other JSON value (numbers,
   * booleans, arrays, objects) is carried through unexamined.
   */
  datatype Json = JNull | JStr(s: string) | JOther(code: nat)

  /**
   * An error response: the HTTP status and the error text (the `error` key of
   * a JSON error; for an uncaught exception, Flask's generic 500 page).
   */
  datatype ApiError = ApiError(status: nat, error: string)

  /** Flask's response to an exception a view does not catch. */
  const InternalServerError: ApiError := ApiError(500, "Internal Server Error")

  /** Python's `d.get(key, default)` on a JSON object. */
  function Get(d: map<string, Json>, key: string, default: Json): Json
  {
    if key in d then d[key] else default
  }
}
