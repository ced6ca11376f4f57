/**
 * What the server route handlers have in common: the answer they give, and
 * the one outside capability they call, a text generator that returns a
 * string or throws.
 */
module Http {
  import opened Json

  /**
   * A handler's answer: a JSON body with an HTTP status, or an exception
   * escaping the handler, which the framework turns into its own error page.
   */
  datatype Reply = Reply(status: nat, body: Json) | Unhandled

  /** A value a handler catches: an Error with its message, or anything else. */
  datatype Thrown = ErrorValue(message: string) | OtherValue

  /** How one call of the text generator ends. */
  datatype Generation = Generated(text: string) | Threw(thrown: Thrown)

  /** `err instanceof Error ? err.message : "Unknown error"` */
  function Details(t: Thrown): string
  {
    match t
    case ErrorValue(m) => m
    case OtherValue => "Unknown error"
  }

  /** The answer of a handler whose generator call threw: status 500 with an error and its details. */
  function GeneratorFailed(feature: string, t: Thrown): Reply
  {
    Reply(500, JObj(map["error" := JStr("Failed to call Gemini for " + feature), "details" := JStr(Details(t))]))
  }

  /** `{ raw }`: the generator's text handed back as it came. */
  function RawObject(raw: string): Json
  {
    JObj(map["raw" := JStr(raw)])
  }
}
