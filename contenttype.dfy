/** `requireJsonContentType`: the guard in front of every route. */
module ContentType {
  import opened Wrappers
  import Text
  import Controller

  /** The methods whose requests carry a body. */
  const BodyMethods: set<string> := {"POST", "PUT", "PATCH"}

  const JsonMediaType := "application/json"

  /** The single `415` answer. */
  const UnsupportedMediaType :=
    Controller.Response(415, Controller.MediaTypeBody("Unsupported Media Type", "Content-Type must be application/json"))

  /** Exactly one thing happens: the request goes on to `next()`, or it is answered. */
  datatype Decision = Next | Respond(response: Controller.Response)

  /**
   * Requests with a body must name `application/json` somewhere in their
   * Content-Type; other methods always go through.
   */
  function RequireJsonContentType(httpMethod: string, contentType: Option<string>): (d: Decision)
    ensures httpMethod !in BodyMethods ==> d == Next
    ensures httpMethod in BodyMethods && contentType.None? ==> d == Respond(UnsupportedMediaType)
    ensures httpMethod in BodyMethods && contentType.Some? ==>
      d == if exists i :: Text.OccursAt(contentType.value, JsonMediaType, i) then Next else Respond(UnsupportedMediaType)
  {
    if httpMethod in BodyMethods then
      if contentType.None? then Respond(UnsupportedMediaType)
      else
        Text.IncludesIffOccurs(contentType.value, JsonMediaType);
        if !Text.Includes(contentType.value, JsonMediaType) then Respond(UnsupportedMediaType) else Next
    else Next
  }

  /** A media type with parameters after it, such as a charset, is accepted. */
  lemma CharsetSuffixAccepted(httpMethod: string, parameters: string)
    requires httpMethod in BodyMethods
    ensures RequireJsonContentType(httpMethod, Some(JsonMediaType + parameters)) == Next
  {
    assert Text.OccursAt(JsonMediaType + parameters, JsonMediaType, 0);
  }
}
