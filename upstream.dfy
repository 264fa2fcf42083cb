/** The upstream HTTP exchange as the handlers see it, with the network call
    itself left out: the status, the body as parsed JSON (absent when it does
    not parse) and the raw text, or the transport failure raised instead. */
module Upstream {
  import opened Wrappers

  /** A member of a JSON object: not there, there with value null, or there with a value.
      `obj.get(k)` gives None for the first two. */
  datatype Field<+T> = Missing | Null | Present(value: T)

  datatype RawSource = RawSource(name: Option<string>, url: Option<string>)

  /** One element of the upstream `articles` list; an Option field is None when the
      member is missing or null, the two cases `.get` does not tell apart. */
  datatype RawArticle = RawArticle(
    title: Option<string>,
    description: Option<string>,
    content: Option<string>,
    url: Option<string>,
    image: Option<string>,
    publishedAt: Option<string>,
    lang: Option<string>,
    source: Field<RawSource>)

  /** The members of a JSON object body the handlers read. */
  datatype Body = Body(
    errors: Field<seq<string>>,
    totalArticles: Field<int>,
    articles: Field<seq<RawArticle>>)

  datatype Exchange =
    | TransportFailure(reason: string)
    | Response(status: nat, body: Option<Body>, text: string)
}
