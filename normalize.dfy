/** The response normalisation of search_news and get_top_headlines: every
    upstream article becomes a record with a fixed set of fields (null where
    the upstream member is missing), and the envelope reports a total. */
module Normalize {
  import opened Wrappers
  import opened Errors
  import opened Upstream

  datatype Source = Source(name: Option<string>, url: Option<string>)

  /** The record search_news returns per article. */
  datatype Article = Article(
    title: Option<string>,
    description: Option<string>,
    content: Option<string>,
    url: Option<string>,
    image: Option<string>,
    publishedAt: Option<string>,
    source: Source)

  /** The record get_top_headlines returns per article: the same, plus `language`. */
  datatype Headline = Headline(article: Article, language: Option<string>)

  datatype Envelope<+A> = Envelope(totalArticles: Option<int>, articles: seq<A>)

  /** `article.get("source", {})` has a `.get` unless the member is there and null. */
  predicate SourceReadable(a: RawArticle) {
    !a.source.Null?
  }

  predicate AllSourcesReadable(raws: seq<RawArticle>) {
    forall i :: 0 <= i < |raws| ==> SourceReadable(raws[i])
  }

  /** `article.get("source", {})` read for its name and url. */
  function SourceOf(f: Field<RawSource>): Source
    requires !f.Null?
  {
    match f
    case Missing => Source(None, None)
    case Present(src) => Source(src.name, src.url)
  }

  /** The record search_news builds for one upstream article. */
  function ArticleOf(a: RawArticle): Article
    requires SourceReadable(a)
  {
    Article(a.title, a.description, a.content, a.url, a.image, a.publishedAt, SourceOf(a.source))
  }

  /** The record get_top_headlines builds for one upstream article. */
  function HeadlineOf(a: RawArticle): Headline
    requires SourceReadable(a)
  {
    Headline(ArticleOf(a), a.lang)
  }

  /** The article list search_news builds from `articles`, or the error it raises. */
  function SearchArticles(raws: seq<RawArticle>): Result<seq<Article>, Error>
  {
    if AllSourcesReadable(raws) then Success(seq(|raws|, i requires 0 <= i < |raws| => ArticleOf(raws[i])))
    else Failure(MalformedResponse)
  }

  /** The article list get_top_headlines builds from `articles`, or the error it raises. */
  function HeadlineArticles(raws: seq<RawArticle>): Result<seq<Headline>, Error>
  {
    if AllSourcesReadable(raws) then Success(seq(|raws|, i requires 0 <= i < |raws| => HeadlineOf(raws[i])))
    else Failure(MalformedResponse)
  }

  /** The normalisation loop of search_news. */
  method NormalizeSearchArticles(raws: seq<RawArticle>) returns (r: Result<seq<Article>, Error>)
    ensures r == SearchArticles(raws)
  {
    var out: seq<Article> := [];
    var i := 0;
    while i < |raws|
      invariant 0 <= i <= |raws|
      invariant forall k :: 0 <= k < i ==> SourceReadable(raws[k])
      invariant |out| == i
      invariant forall k :: 0 <= k < i ==> out[k] == ArticleOf(raws[k])
    {
      if raws[i].source.Null? {
        return Failure(MalformedResponse);
      }
      out := out + [ArticleOf(raws[i])];
      i := i + 1;
    }
    assert out == seq(|raws|, k requires 0 <= k < |raws| => ArticleOf(raws[k]));
    return Success(out);
  }

  /** The normalisation loop of get_top_headlines. */
  method NormalizeHeadlineArticles(raws: seq<RawArticle>) returns (r: Result<seq<Headline>, Error>)
    ensures r == HeadlineArticles(raws)
  {
    var out: seq<Headline> := [];
    var i := 0;
    while i < |raws|
      invariant 0 <= i <= |raws|
      invariant forall k :: 0 <= k < i ==> SourceReadable(raws[k])
      invariant |out| == i
      invariant forall k :: 0 <= k < i ==> out[k] == HeadlineOf(raws[k])
    {
      if raws[i].source.Null? {
        return Failure(MalformedResponse);
      }
      out := out + [HeadlineOf(raws[i])];
      i := i + 1;
    }
    assert out == seq(|raws|, k requires 0 <= k < |raws| => HeadlineOf(raws[k]));
    return Success(out);
  }

  /** `response.get("totalArticles", len(normalized_articles))`. */
  function TotalArticles(total: Field<int>, count: nat): Option<int>
  {
    match total
    case Missing => Some(count)
    case Null => None
    case Present(n) => Some(n)
  }

  /** `response.get("articles", [])`, or the TypeError of iterating a null. */
  function RawArticles(data: Body): Result<seq<RawArticle>, Error>
  {
    match data.articles
    case Missing => Success([])
    case Null => Failure(MalformedResponse)
    case Present(raws) => Success(raws)
  }

  /** The envelope search_news returns for the gateway's body (None: the body
      did not parse, and `.get` on None raises). */
  function SearchEnvelopeOf(data: Option<Body>): (r: Result<Envelope<Article>, Error>)
    ensures r.Failure? ==> r.error == MalformedResponse
    ensures r.Success? ==>
      && data.Some? && !data.value.articles.Null?
      && |r.value.articles| == |RawArticles(data.value).value|
      && r.value.totalArticles == TotalArticles(data.value.totalArticles, |r.value.articles|)
  {
    if data.None? then Failure(MalformedResponse)
    else
      var raws :- RawArticles(data.value);
      var articles :- SearchArticles(raws);
      Success(Envelope(TotalArticles(data.value.totalArticles, |articles|), articles))
  }

  function HeadlinesEnvelopeOf(data: Option<Body>): (r: Result<Envelope<Headline>, Error>)
    ensures r.Failure? ==> r.error == MalformedResponse
    ensures r.Success? ==>
      && data.Some? && !data.value.articles.Null?
      && |r.value.articles| == |RawArticles(data.value).value|
      && r.value.totalArticles == TotalArticles(data.value.totalArticles, |r.value.articles|)
  {
    if data.None? then Failure(MalformedResponse)
    else
      var raws :- RawArticles(data.value);
      var articles :- HeadlineArticles(raws);
      Success(Envelope(TotalArticles(data.value.totalArticles, |articles|), articles))
  }

  method SearchEnvelope(data: Option<Body>) returns (r: Result<Envelope<Article>, Error>)
    ensures r == SearchEnvelopeOf(data)
  {
    if data.None? {
      return Failure(MalformedResponse);
    }
    var raws :- RawArticles(data.value);
    var articles :- NormalizeSearchArticles(raws);
    return Success(Envelope(TotalArticles(data.value.totalArticles, |articles|), articles));
  }

  method HeadlinesEnvelope(data: Option<Body>) returns (r: Result<Envelope<Headline>, Error>)
    ensures r == HeadlinesEnvelopeOf(data)
  {
    if data.None? {
      return Failure(MalformedResponse);
    }
    var raws :- RawArticles(data.value);
    var articles :- NormalizeHeadlineArticles(raws);
    return Success(Envelope(TotalArticles(data.value.totalArticles, |articles|), articles));
  }

  /** The search envelope keeps the upstream list's length and order, fills every
      field from the matching upstream record, and reports the upstream total or,
      without one, the number of articles. */
  lemma SearchEnvelopeShape(data: Body)
    requires SearchEnvelopeOf(Some(data)).Success?
    ensures var env := SearchEnvelopeOf(Some(data)).value;
      var raws := RawArticles(data).value;
      && |env.articles| == |raws|
      && (forall i :: 0 <= i < |raws| ==> env.articles[i] == ArticleOf(raws[i]))
      && (data.articles.Missing? ==> env.articles == [])
      && (data.totalArticles.Missing? ==> env.totalArticles == Some(|env.articles|))
      && (data.totalArticles.Present? ==> env.totalArticles == Some(data.totalArticles.value))
      && (data.totalArticles.Null? ==> env.totalArticles == None)
  {
  }

  lemma HeadlinesEnvelopeShape(data: Body)
    requires HeadlinesEnvelopeOf(Some(data)).Success?
    ensures var env := HeadlinesEnvelopeOf(Some(data)).value;
      var raws := RawArticles(data).value;
      && |env.articles| == |raws|
      && (forall i :: 0 <= i < |raws| ==>
            env.articles[i].article == ArticleOf(raws[i]) && env.articles[i].language == raws[i].lang)
      && (data.articles.Missing? ==> env.articles == [])
      && (data.totalArticles.Missing? ==> env.totalArticles == Some(|env.articles|))
      && (data.totalArticles.Present? ==> env.totalArticles == Some(data.totalArticles.value))
      && (data.totalArticles.Null? ==> env.totalArticles == None)
  {
  }

  /** Normalisation fails only on a body that did not parse, a null `articles`,
      or an article whose `source` is null. */
  lemma SearchEnvelopeFailsOnlyOnShape(data: Option<Body>)
    ensures SearchEnvelopeOf(data).Failure? <==>
      data.None? || data.value.articles.Null? ||
      (data.value.articles.Present? && exists i :: 0 <= i < |data.value.articles.value| && data.value.articles.value[i].source.Null?)
    ensures SearchEnvelopeOf(data).Failure? ==> SearchEnvelopeOf(data).error == MalformedResponse
  {
  }

  lemma HeadlinesEnvelopeFailsOnlyOnShape(data: Option<Body>)
    ensures HeadlinesEnvelopeOf(data).Failure? <==>
      data.None? || data.value.articles.Null? ||
      (data.value.articles.Present? && exists i :: 0 <= i < |data.value.articles.value| && data.value.articles.value[i].source.Null?)
    ensures HeadlinesEnvelopeOf(data).Failure? ==> HeadlinesEnvelopeOf(data).error == MalformedResponse
  {
  }
}
