/** The failures the handlers raise. Every one but MalformedResponse is a
    ValueError whose text Message gives; MalformedResponse stands for the
    AttributeError or TypeError Python raises when a 200 body lacks the shape
    the normalisation reads. */
module Errors {

  datatype Error =
    | InvalidDate(input: string)
    | EmptyQuery
    | InvalidSortBy
    | InvalidLanguage
    | InvalidCountry
    | InvalidCategory(allowed: seq<string>)
    | MissingApiKey
    | ApiError(detail: string)
    | RequestFailed(reason: string)
    | MalformedResponse

  function Join(parts: seq<string>, sep: string): string
  {
    if |parts| == 0 then ""
    else if |parts| == 1 then parts[0]
    else parts[0] + sep + Join(parts[1..], sep)
  }

  const DateFormatPrefix := "Invalid date format: "
  const DateFormatHint := ". Use YYYY-MM-DD format (e.g., 2024-01-15)"

  const ApiErrorPrefix := "GNews API error: "

  /** The text of the ValueError for each kind. The date error quotes the
      rejected input verbatim; an API error keeps the "GNews API error" prefix
      on which the gateway's catch-all re-raises it unchanged. */
  function Message(e: Error): (m: string)
    requires !e.MalformedResponse?
    ensures |m| > 0
    ensures e.InvalidDate? ==>
      && |m| == |DateFormatPrefix| + |e.input| + |DateFormatHint|
      && m[..|DateFormatPrefix|] == DateFormatPrefix
      && m[|DateFormatPrefix|..|DateFormatPrefix| + |e.input|] == e.input
      && m[|DateFormatPrefix| + |e.input|..] == DateFormatHint
    ensures e.ApiError? ==> |m| == |ApiErrorPrefix| + |e.detail| && m[..|ApiErrorPrefix|] == ApiErrorPrefix && m[|ApiErrorPrefix|..] == e.detail
  {
    match e
    case InvalidDate(input) => DateFormatPrefix + input + DateFormatHint
    case EmptyQuery => "Search query 'query' is required and cannot be empty"
    case InvalidSortBy => "'sortby' must be 'publishedAt' or 'relevance'"
    case InvalidLanguage => "'language' must be a 2-letter language code"
    case InvalidCountry => "'country' must be a 2-letter country code"
    case InvalidCategory(allowed) => "'category' must be one of: " + Join(allowed, ", ")
    case MissingApiKey => "GNews API key not set. Please set GNEWS_KEY environment variable."
    case ApiError(detail) => ApiErrorPrefix + detail
    case RequestFailed(reason) => "Request error: " + reason
  }
}
