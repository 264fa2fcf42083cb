/** search_news and get_top_headlines: validation in the source's order,
    assembly of the query parameters, the call through the gateway and the
    normalisation of the response. The exchange the request meets and the
    configured key are inputs. */
module Handlers {
  import opened Wrappers
  import opened Text
  import opened Errors
  import opened Dates
  import opened QueryParams
  import opened Upstream
  import opened Gateway
  import opened Normalize

  const MaxArticles := 10
  const DefaultIn := "title,description"
  const DefaultSortBy := "publishedAt"
  /** The defaults of the `language` and `category` parameters, which a caller
      that omits them passes here. */
  const DefaultLanguage := "en"
  const DefaultCategory := "general"
  const SortOptions: seq<string> := ["publishedAt", "relevance"]
  const Categories: seq<string> :=
    ["general", "world", "nation", "business", "technology", "entertainment", "sports", "science", "health"]

  /** `len(s) == 2 and s.isalpha()`: the shape of a language or country code. */
  predicate IsCode(s: string) {
    |s| == 2 && IsAlpha(s)
  }

  /** An optional string argument that Python treats as true: supplied and non-empty. */
  predicate Given(v: Option<string>) {
    v.Some? && v.value != ""
  }

  /** `kwargs.get(k)` */
  function Kwarg(kwargs: map<string, string>, k: string): Option<string>
  {
    if k in kwargs then Some(kwargs[k]) else None
  }

  /** `kwargs.get(k, default)` */
  function KwargOr(kwargs: map<string, string>, k: string, default: string): string
  {
    if k in kwargs then kwargs[k] else default
  }

  /** `validate_and_convert_date(d) if d else None` */
  function ConvertGiven(date: Option<string>): (r: Result<Option<string>, Error>)
    ensures !Given(date) ==> r == Success(None)
    ensures r.Failure? ==> Given(date) && r.error == InvalidDate(date.value)
    ensures r.Success? && Given(date) ==> r.value.Some?
  {
    if Given(date) then
      var iso :- ValidateAndConvertDate(date.value);
      Success(Some(iso))
    else Success(None)
  }

  /** The optional filters both operations add after their fixed parameters. */
  function WithFilters(p: Query, country: Option<string>, from: Option<string>, to: Option<string>): (r: Query)
    ensures NoFilterKey(p) ==> FilterEntries(r, country, from, to)
  {
    var withCountry := if Given(country) then p.Put("country", Str(Lower(country.value))) else p;
    var withFrom := if from.Some? then withCountry.Put("from", Str(from.value)) else withCountry;
    if to.Some? then withFrom.Put("to", Str(to.value)) else withFrom
  }

  /** The parameters search_news sends (before the key is added), or the error it raises first. */
  function SearchQuery(query: string, language: string, country: Option<string>, kwargs: map<string, string>)
    : (r: Result<Query, Error>)
    ensures r.Failure? ==>
      r.error.EmptyQuery? || r.error.InvalidDate? || r.error.InvalidSortBy? || r.error.InvalidLanguage?
      || r.error.InvalidCountry?
    ensures r.Success? ==> Strip(query) != "" && IsCode(language)
  {
    var inAttr := KwargOr(kwargs, "in", DefaultIn);
    var sortBy := KwargOr(kwargs, "sort_by", DefaultSortBy);
    // `not query or not query.strip()`: the empty string strips to "" as well
    if Strip(query) == "" then Failure(EmptyQuery)
    else
      var from :- ConvertGiven(Kwarg(kwargs, "start_date"));
      var to :- ConvertGiven(Kwarg(kwargs, "end_date"));
      if sortBy !in SortOptions then Failure(InvalidSortBy)
      else if !IsCode(language) then Failure(InvalidLanguage)
      else if Given(country) && !IsCode(country.value) then Failure(InvalidCountry)
      else Success(SearchParams(query, language, country, inAttr, sortBy, from, to))
  }

  /** The dict search_news builds once every check has passed. */
  function SearchParams(query: string, language: string, country: Option<string>, inAttr: string, sortBy: string,
                        from: Option<string>, to: Option<string>): Query
  {
    WithFilters(SearchFixed(query, language, inAttr, sortBy), country, from, to)
  }

  /** The entries search_news always sets, in order. */
  function SearchFixed(query: string, language: string, inAttr: string, sortBy: string): Query
  {
    Empty.Put("q", Str(Strip(query))).Put("lang", Str(Lower(language)))
      .Put("max", Number(MaxArticles)).Put("in", Str(inAttr)).Put("sortby", Str(sortBy))
  }

  /** The parameters get_top_headlines sends (before the key is added), or the error it raises first. */
  function HeadlinesQuery(category: string, language: string, country: Option<string>,
                          startDate: Option<string>, endDate: Option<string>, query: Option<string>)
    : (r: Result<Query, Error>)
    ensures r.Failure? ==>
      r.error.InvalidCategory? || r.error.InvalidDate? || r.error.InvalidLanguage? || r.error.InvalidCountry?
    ensures r.Success? ==> category in Categories && IsCode(language)
  {
    if category !in Categories then Failure(InvalidCategory(Categories))
    else
      var from :- ConvertGiven(startDate);
      var to :- ConvertGiven(endDate);
      if !IsCode(language) then Failure(InvalidLanguage)
      else if Given(country) && !IsCode(country.value) then Failure(InvalidCountry)
      else Success(HeadlinesParams(category, language, country, from, to, query))
  }

  /** The dict get_top_headlines builds once every check has passed. */
  function HeadlinesParams(category: string, language: string, country: Option<string>,
                           from: Option<string>, to: Option<string>, query: Option<string>): Query
  {
    var p := WithFilters(HeadlinesFixed(category, language), country, from, to);
    if Given(query) then p.Put("q", Str(Strip(query.value))) else p
  }

  /** The entries get_top_headlines always sets, in order. */
  function HeadlinesFixed(category: string, language: string): Query
  {
    Empty.Put("category", Str(category)).Put("lang", Str(Lower(language))).Put("max", Number(MaxArticles))
  }

  /** The request the gateway issues for validated parameters, if any. */
  function SentRequest(params: Result<Query, Error>, endpoint: string, key: Option<string>): Option<Request>
  {
    if params.Success? && HasKey(key) then
      Some(Request(Url(endpoint), params.value.Put(ApiKeyName, Str(key.value))))
    else None
  }

  /** What the gateway call yields after validation: the validation error, the
      missing-key error, or the gateway's own outcome. */
  function GatewayOutcome(params: Result<Query, Error>, key: Option<string>, ex: Exchange): Result<Option<Body>, Error>
  {
    if params.Failure? then Failure(params.error)
    else if !HasKey(key) then Failure(MissingApiKey)
    else Respond(ex)
  }

  function SearchOutcome(query: string, language: string, country: Option<string>, kwargs: map<string, string>,
                         key: Option<string>, ex: Exchange): Result<Envelope<Article>, Error>
  {
    var data :- GatewayOutcome(SearchQuery(query, language, country, kwargs), key, ex);
    SearchEnvelopeOf(data)
  }

  function HeadlinesOutcome(category: string, language: string, country: Option<string>,
                            startDate: Option<string>, endDate: Option<string>, query: Option<string>,
                            key: Option<string>, ex: Exchange): Result<Envelope<Headline>, Error>
  {
    var data :- GatewayOutcome(HeadlinesQuery(category, language, country, startDate, endDate, query), key, ex);
    HeadlinesEnvelopeOf(data)
  }

  /** The optional filters, added in place. */
  method AddFilters(params: Params, country: Option<string>, from: Option<string>, to: Option<string>)
    requires params.Valid()
    modifies params
    ensures params.Valid()
    ensures params.Value() == WithFilters(old(params.Value()), country, from, to)
  {
    if Given(country) {
      params.Set("country", Str(Lower(country.value)));
    }
    if from.Some? {
      params.Set("from", Str(from.value));
    }
    if to.Some? {
      params.Set("to", Str(to.value));
    }
  }

  /** The `params` dict of search_news, built key by key. */
  method BuildSearchParams(query: string, language: string, country: Option<string>, inAttr: string, sortBy: string,
                           from: Option<string>, to: Option<string>) returns (params: Params)
    ensures fresh(params) && params.Valid()
    ensures params.Value() == SearchParams(query, language, country, inAttr, sortBy, from, to)
  {
    params := new Params();
    params.Set("q", Str(Strip(query)));
    params.Set("lang", Str(Lower(language)));
    params.Set("max", Number(MaxArticles));
    params.Set("in", Str(inAttr));
    params.Set("sortby", Str(sortBy));
    AddFilters(params, country, from, to);
  }

  /** The `params` dict of get_top_headlines, built key by key. */
  method BuildHeadlinesParams(category: string, language: string, country: Option<string>,
                              from: Option<string>, to: Option<string>, query: Option<string>) returns (params: Params)
    ensures fresh(params) && params.Valid()
    ensures params.Value() == HeadlinesParams(category, language, country, from, to, query)
  {
    params := new Params();
    params.Set("category", Str(category));
    params.Set("lang", Str(Lower(language)));
    params.Set("max", Number(MaxArticles));
    AddFilters(params, country, from, to);
    if Given(query) {
      params.Set("q", Str(Strip(query.value)));
    }
  }

  /** The gateway call and the normalisation that end search_news. */
  method FetchSearch(params: Params, key: Option<string>, ex: Exchange)
    returns (r: Result<Envelope<Article>, Error>, sent: Option<Request>)
    requires params.Valid()
    modifies params
    ensures params.Valid()
    ensures HasKey(key) ==> params.Value() == old(params.Value()).Put(ApiKeyName, Str(key.value))
    ensures !HasKey(key) ==> params.Value() == old(params.Value())
    ensures sent == SentRequest(Success(old(params.Value())), "search", key)
    ensures r == (var data :- GatewayOutcome(Success(old(params.Value())), key, ex); SearchEnvelopeOf(data))
  {
    var data;
    data, sent := MakeGnewsRequest("search", params, key, ex);
    var body :- data;
    r := SearchEnvelope(body);
  }

  /** The gateway call and the normalisation that end get_top_headlines. */
  method FetchHeadlines(params: Params, key: Option<string>, ex: Exchange)
    returns (r: Result<Envelope<Headline>, Error>, sent: Option<Request>)
    requires params.Valid()
    modifies params
    ensures params.Valid()
    ensures HasKey(key) ==> params.Value() == old(params.Value()).Put(ApiKeyName, Str(key.value))
    ensures !HasKey(key) ==> params.Value() == old(params.Value())
    ensures sent == SentRequest(Success(old(params.Value())), "top-headlines", key)
    ensures r == (var data :- GatewayOutcome(Success(old(params.Value())), key, ex); HeadlinesEnvelopeOf(data))
  {
    var data;
    data, sent := MakeGnewsRequest("top-headlines", params, key, ex);
    var body :- data;
    r := HeadlinesEnvelope(body);
  }

  /** The checks of search_news, in its order; on success, the converted dates. */
  method CheckSearch(query: string, language: string, country: Option<string>, startDate: Option<string>,
                     endDate: Option<string>, sortBy: string)
    returns (r: Result<(Option<string>, Option<string>), Error>)
    ensures r.Success? <==> (
      && Strip(query) != ""
      && ConvertGiven(startDate).Success?
      && ConvertGiven(endDate).Success?
      && sortBy in SortOptions
      && IsCode(language)
      && (Given(country) ==> IsCode(country.value)))
    ensures r.Success? ==> r.value == (ConvertGiven(startDate).value, ConvertGiven(endDate).value)
    ensures r.Failure? ==> (r.error ==
      if Strip(query) == "" then EmptyQuery
      else if ConvertGiven(startDate).Failure? then ConvertGiven(startDate).error
      else if ConvertGiven(endDate).Failure? then ConvertGiven(endDate).error
      else if sortBy !in SortOptions then InvalidSortBy
      else if !IsCode(language) then InvalidLanguage
      else InvalidCountry)
  {
    if Strip(query) == "" {
      return Failure(EmptyQuery);
    }
    var from :- ConvertGiven(startDate);
    var to :- ConvertGiven(endDate);
    if sortBy !in SortOptions {
      return Failure(InvalidSortBy);
    }
    if !IsCode(language) {
      return Failure(InvalidLanguage);
    }
    if Given(country) && !IsCode(country.value) {
      return Failure(InvalidCountry);
    }
    return Success((from, to));
  }

  /** The checks of get_top_headlines, in its order; on success, the converted dates. */
  method CheckHeadlines(category: string, language: string, country: Option<string>,
                        startDate: Option<string>, endDate: Option<string>)
    returns (r: Result<(Option<string>, Option<string>), Error>)
    ensures r.Success? <==> (
      && category in Categories
      && ConvertGiven(startDate).Success?
      && ConvertGiven(endDate).Success?
      && IsCode(language)
      && (Given(country) ==> IsCode(country.value)))
    ensures r.Success? ==> r.value == (ConvertGiven(startDate).value, ConvertGiven(endDate).value)
    ensures r.Failure? ==> (r.error ==
      if category !in Categories then InvalidCategory(Categories)
      else if ConvertGiven(startDate).Failure? then ConvertGiven(startDate).error
      else if ConvertGiven(endDate).Failure? then ConvertGiven(endDate).error
      else if !IsCode(language) then InvalidLanguage
      else InvalidCountry)
  {
    if category !in Categories {
      return Failure(InvalidCategory(Categories));
    }
    var from :- ConvertGiven(startDate);
    var to :- ConvertGiven(endDate);
    if !IsCode(language) {
      return Failure(InvalidLanguage);
    }
    if Given(country) && !IsCode(country.value) {
      return Failure(InvalidCountry);
    }
    return Success((from, to));
  }

  /** search_news(query, language, country, **kwargs). */
  method SearchNews(query: string, language: string, country: Option<string>, kwargs: map<string, string>,
                    key: Option<string>, ex: Exchange)
    returns (r: Result<Envelope<Article>, Error>, sent: Option<Request>)
    ensures sent == SentRequest(SearchQuery(query, language, country, kwargs), "search", key)
    ensures r == SearchOutcome(query, language, country, kwargs, key, ex)
  {
    var inAttr := KwargOr(kwargs, "in", DefaultIn);
    var startDate := Kwarg(kwargs, "start_date");
    var endDate := Kwarg(kwargs, "end_date");
    var sortBy := KwargOr(kwargs, "sort_by", DefaultSortBy);
    var checked := CheckSearch(query, language, country, startDate, endDate, sortBy);
    if checked.Failure? {
      return Failure(checked.error), None;
    }
    var (from, to) := checked.value;
    var params := BuildSearchParams(query, language, country, inAttr, sortBy, from, to);
    r, sent := FetchSearch(params, key, ex);
  }

  /** get_top_headlines(category, language, country, start_date, end_date, query). */
  method GetTopHeadlines(category: string, language: string, country: Option<string>,
                         startDate: Option<string>, endDate: Option<string>, query: Option<string>,
                         key: Option<string>, ex: Exchange)
    returns (r: Result<Envelope<Headline>, Error>, sent: Option<Request>)
    ensures sent == SentRequest(HeadlinesQuery(category, language, country, startDate, endDate, query), "top-headlines", key)
    ensures r == HeadlinesOutcome(category, language, country, startDate, endDate, query, key, ex)
  {
    var checked := CheckHeadlines(category, language, country, startDate, endDate);
    if checked.Failure? {
      return Failure(checked.error), None;
    }
    var (from, to) := checked.value;
    var params := BuildHeadlinesParams(category, language, country, from, to, query);
    r, sent := FetchHeadlines(params, key, ex);
  }

  // ---------------------------------------------------------------------------
  // What the two operations promise.

  /** s names a real calendar date in a form strptime("%Y-%m-%d") accepts. */
  ghost predicate IsCalendarDate(s: string) {
    exists dt :: SpellsDate(s, dt)
  }

  /** A date argument passes when it is absent, empty or a calendar date. */
  ghost predicate DateArgOk(d: Option<string>) {
    Given(d) ==> IsCalendarDate(d.value)
  }

  lemma ConvertGivenOk(d: Option<string>)
    ensures ConvertGiven(d).Success? <==> DateArgOk(d)
  {
    if Given(d) {
      ConvertDateRejects(d.value);
    }
  }

  /** search_news rejects exactly the inputs one of its checks refuses, and the
      error is that of the first check that refuses, in the order query, start
      date, end date, sort_by, language, country. */
  lemma SearchValidation(query: string, language: string, country: Option<string>, kwargs: map<string, string>)
    ensures var r := SearchQuery(query, language, country, kwargs);
      var start := Kwarg(kwargs, "start_date");
      var end := Kwarg(kwargs, "end_date");
      var sortBy := KwargOr(kwargs, "sort_by", DefaultSortBy);
      && (AllSpace(query) ==> r == Failure(EmptyQuery))
      && (!AllSpace(query) && !DateArgOk(start) ==> r == Failure(InvalidDate(start.value)))
      && (!AllSpace(query) && DateArgOk(start) && !DateArgOk(end) ==> r == Failure(InvalidDate(end.value)))
      && (!AllSpace(query) && DateArgOk(start) && DateArgOk(end) && sortBy !in SortOptions ==> r == Failure(InvalidSortBy))
      && (!AllSpace(query) && DateArgOk(start) && DateArgOk(end) && sortBy in SortOptions && !IsCode(language)
          ==> r == Failure(InvalidLanguage))
      && ((!AllSpace(query) && DateArgOk(start) && DateArgOk(end) && sortBy in SortOptions && IsCode(language)
           && Given(country) && !IsCode(country.value)) ==> r == Failure(InvalidCountry))
      && ((!AllSpace(query) && DateArgOk(start) && DateArgOk(end) && sortBy in SortOptions && IsCode(language)
           && (Given(country) ==> IsCode(country.value))) <==> r.Success?)
  {
    StripEmptyIffBlank(query);
    ConvertGivenOk(Kwarg(kwargs, "start_date"));
    ConvertGivenOk(Kwarg(kwargs, "end_date"));
  }

  /** The optional filters are present exactly when supplied, country lowercased,
      dates as the midnight timestamp of the date they name. */
  ghost predicate FiltersAsSupplied(p: Query, country: Option<string>, start: Option<string>, end: Option<string>) {
    && ("country" in p.vals <==> Given(country))
    && (Given(country) ==> p.vals["country"] == Str(Lower(country.value)))
    && ("from" in p.vals <==> Given(start))
    && (Given(start) ==> exists dt :: SpellsDate(start.value, dt) && p.vals["from"] == Str(IsoMidnight(dt)))
    && ("to" in p.vals <==> Given(end))
    && (Given(end) ==> exists dt :: SpellsDate(end.value, dt) && p.vals["to"] == Str(IsoMidnight(dt)))
  }

  /** The filter keys, in the order they are added. */
  function FilterKeys(withCountry: bool, withFrom: bool, withTo: bool): seq<string>
  {
    (if withCountry then ["country"] else []) + (if withFrom then ["from"] else [])
    + (if withTo then ["to"] else [])
  }

  predicate NoFilterKey(p: Query) {
    "country" !in p.vals && "from" !in p.vals && "to" !in p.vals
  }

  /** The filter entries of p, for the filter values as the dict receives them. */
  predicate FilterEntries(p: Query, country: Option<string>, from: Option<string>, to: Option<string>) {
    && ("country" in p.vals <==> Given(country))
    && (Given(country) ==> p.vals["country"] == Str(Lower(country.value)))
    && ("from" in p.vals <==> from.Some?) && (from.Some? ==> p.vals["from"] == Str(from.value))
    && ("to" in p.vals <==> to.Some?) && (to.Some? ==> p.vals["to"] == Str(to.value))
  }

  /** WithFilters appends the keys of the supplied filters, in order, to a dict
      that holds none of them. */
  lemma WithFiltersKeys(p: Query, country: Option<string>, from: Option<string>, to: Option<string>)
    requires NoFilterKey(p)
    ensures WithFilters(p, country, from, to).keys == p.keys + FilterKeys(Given(country), from.Some?, to.Some?)
  {
    var withCountry := if Given(country) then p.Put("country", Str(Lower(country.value))) else p;
    assert withCountry.keys == p.keys + (if Given(country) then ["country"] else []);
    var withFrom := if from.Some? then withCountry.Put("from", Str(from.value)) else withCountry;
    assert withFrom.keys == withCountry.keys + (if from.Some? then ["from"] else []);
    var r := if to.Some? then withFrom.Put("to", Str(to.value)) else withFrom;
    assert r.keys == withFrom.keys + (if to.Some? then ["to"] else []);
    ConcatAssoc(p.keys, if Given(country) then ["country"] else [], if from.Some? then ["from"] else [],
                if to.Some? then ["to"] else []);
  }

  lemma ConcatAssoc<T>(x: seq<T>, a: seq<T>, b: seq<T>, c: seq<T>)
    ensures x + a + b + c == x + (a + b + c)
  {
  }

  /** WithFilters sets exactly the supplied filters and keeps every other entry. */
  lemma WithFiltersEntries(p: Query, country: Option<string>, from: Option<string>, to: Option<string>)
    requires NoFilterKey(p)
    ensures var r := WithFilters(p, country, from, to);
      && (forall k :: k in p.vals ==> k in r.vals && r.vals[k] == p.vals[k])
      && (forall k :: k in r.vals && k !in p.vals ==> k == "country" || k == "from" || k == "to")
  {
  }

  /** A converted date argument is present exactly when the argument is given, and
      is then the midnight timestamp of the date it spells. */
  lemma ConvertedDateNames(d: Option<string>)
    requires ConvertGiven(d).Success?
    ensures ConvertGiven(d).value.Some? <==> Given(d)
    ensures Given(d) ==> exists dt :: SpellsDate(d.value, dt) && ConvertGiven(d).value.value == IsoMidnight(dt)
  {
    if Given(d) {
      var dt := ParseDate(d.value).value;
      ParseDateIff(d.value, dt);
    }
  }

  /** Entries holding the converted dates are the filters as supplied. */
  lemma ConvertedFilters(p: Query, country: Option<string>, start: Option<string>, end: Option<string>)
    requires ConvertGiven(start).Success? && ConvertGiven(end).Success?
    requires FilterEntries(p, country, ConvertGiven(start).value, ConvertGiven(end).value)
    ensures FiltersAsSupplied(p, country, start, end)
  {
    ConvertedDateNames(start);
    ConvertedDateNames(end);
    if Given(start) {
      var dt :| SpellsDate(start.value, dt) && ConvertGiven(start).value.value == IsoMidnight(dt);
      assert SpellsDate(start.value, dt) && p.vals["from"] == Str(IsoMidnight(dt));
    }
    if Given(end) {
      var dt :| SpellsDate(end.value, dt) && ConvertGiven(end).value.value == IsoMidnight(dt);
      assert SpellsDate(end.value, dt) && p.vals["to"] == Str(IsoMidnight(dt));
    }
  }

  /** search_news succeeds only past every check, with the dict built from the
      converted dates. */
  lemma SearchQueryPassed(query: string, language: string, country: Option<string>, kwargs: map<string, string>)
    requires SearchQuery(query, language, country, kwargs).Success?
    ensures var start := ConvertGiven(Kwarg(kwargs, "start_date"));
      var end := ConvertGiven(Kwarg(kwargs, "end_date"));
      && Strip(query) != "" && start.Success? && end.Success?
      && KwargOr(kwargs, "sort_by", DefaultSortBy) in SortOptions && IsCode(language)
      && SearchQuery(query, language, country, kwargs).value
         == SearchParams(query, language, country, KwargOr(kwargs, "in", DefaultIn),
                         KwargOr(kwargs, "sort_by", DefaultSortBy), start.value, end.value)
  {
  }

  lemma LowerCode(s: string)
    requires IsCode(s)
    ensures IsCode(Lower(s))
  {
  }

  lemma SearchFixedContents(query: string, language: string, inAttr: string, sortBy: string)
    ensures var fixed := SearchFixed(query, language, inAttr, sortBy);
      && fixed.keys == ["q", "lang", "max", "in", "sortby"]
      && "q" in fixed.vals && "lang" in fixed.vals && "max" in fixed.vals && "in" in fixed.vals && "sortby" in fixed.vals
      && NoFilterKey(fixed) && ApiKeyName !in fixed.vals
      && fixed.vals["q"] == Str(Strip(query)) && fixed.vals["lang"] == Str(Lower(language))
      && fixed.vals["max"] == Number(10) && fixed.vals["in"] == Str(inAttr) && fixed.vals["sortby"] == Str(sortBy)
  {
    var p1 := Empty.Put("q", Str(Strip(query)));
    assert NoFilterKey(p1);
    var p2 := p1.Put("lang", Str(Lower(language)));
    assert p2.keys == ["q", "lang"] && NoFilterKey(p2);
    var p3 := p2.Put("max", Number(MaxArticles));
    assert p3.keys == ["q", "lang", "max"] && NoFilterKey(p3);
    var p4 := p3.Put("in", Str(inAttr));
    assert p4.keys == ["q", "lang", "max", "in"] && NoFilterKey(p4);
    assert "q" in p4.vals && "lang" in p4.vals && "max" in p4.vals && ApiKeyName !in p4.vals;
  }

  /** The dict search_news builds, entry by entry. */
  lemma SearchParamsContents(query: string, language: string, country: Option<string>, inAttr: string, sortBy: string,
                             from: Option<string>, to: Option<string>)
    ensures var p := SearchParams(query, language, country, inAttr, sortBy, from, to);
      && p.keys == ["q", "lang", "max", "in", "sortby"] + FilterKeys(Given(country), from.Some?, to.Some?)
      && "q" in p.vals && "lang" in p.vals && "max" in p.vals && "in" in p.vals && "sortby" in p.vals
      && ApiKeyName !in p.vals
      && p.vals["q"] == Str(Strip(query))
      && p.vals["lang"] == Str(Lower(language))
      && p.vals["max"] == Number(10)
      && p.vals["in"] == Str(inAttr)
      && p.vals["sortby"] == Str(sortBy)
      && FilterEntries(p, country, from, to)
  {
    SearchFixedContents(query, language, inAttr, sortBy);
    WithFiltersKeys(SearchFixed(query, language, inAttr, sortBy), country, from, to);
    WithFiltersEntries(SearchFixed(query, language, inAttr, sortBy), country, from, to);
  }

  /** The parameters search_news sends: exactly q, lang, max, in, sortby and the
      supplied filters, in that order; q trimmed, lang lowercased, max always 10. */
  lemma SearchQueryContents(query: string, language: string, country: Option<string>, kwargs: map<string, string>)
    requires SearchQuery(query, language, country, kwargs).Success?
    ensures var p := SearchQuery(query, language, country, kwargs).value;
      var start := Kwarg(kwargs, "start_date");
      var end := Kwarg(kwargs, "end_date");
      && p.keys == ["q", "lang", "max", "in", "sortby"] + FilterKeys(Given(country), Given(start), Given(end))
      && "q" in p.vals && "lang" in p.vals && "max" in p.vals && "in" in p.vals && "sortby" in p.vals
      && ApiKeyName !in p.vals
      && p.vals["q"] == Str(Strip(query)) && Strip(query) != ""
      && p.vals["lang"] == Str(Lower(language)) && IsCode(Lower(language))
      && p.vals["max"] == Number(10)
      && p.vals["in"] == Str(KwargOr(kwargs, "in", DefaultIn))
      && p.vals["sortby"] == Str(KwargOr(kwargs, "sort_by", DefaultSortBy))
      && KwargOr(kwargs, "sort_by", DefaultSortBy) in SortOptions
      && FiltersAsSupplied(p, country, start, end)
  {
    SearchQueryPassed(query, language, country, kwargs);
    LowerCode(language);
    var start := Kwarg(kwargs, "start_date");
    var end := Kwarg(kwargs, "end_date");
    ConvertedDateNames(start);
    ConvertedDateNames(end);
    SearchParamsContents(query, language, country, KwargOr(kwargs, "in", DefaultIn),
                         KwargOr(kwargs, "sort_by", DefaultSortBy), ConvertGiven(start).value, ConvertGiven(end).value);
    ConvertedFilters(SearchQuery(query, language, country, kwargs).value, country, start, end);
  }

  /** Only the kwargs in, start_date, end_date and sort_by are read: a `sortby`
      or `max` keyword, among others, changes nothing. */
  lemma SearchReadsOnlyKnownKwargs(query: string, language: string, country: Option<string>,
                                   kwargs: map<string, string>, other: map<string, string>)
    requires Kwarg(kwargs, "in") == Kwarg(other, "in")
    requires Kwarg(kwargs, "start_date") == Kwarg(other, "start_date")
    requires Kwarg(kwargs, "end_date") == Kwarg(other, "end_date")
    requires Kwarg(kwargs, "sort_by") == Kwarg(other, "sort_by")
    ensures SearchQuery(query, language, country, kwargs) == SearchQuery(query, language, country, other)
  {
  }

  /** get_top_headlines checks the category before anything else. */
  lemma HeadlinesValidation(category: string, language: string, country: Option<string>,
                            startDate: Option<string>, endDate: Option<string>, query: Option<string>)
    ensures var r := HeadlinesQuery(category, language, country, startDate, endDate, query);
      && (category !in Categories ==> r == Failure(InvalidCategory(Categories)))
      && (category in Categories && !DateArgOk(startDate) ==> r == Failure(InvalidDate(startDate.value)))
      && (category in Categories && DateArgOk(startDate) && !DateArgOk(endDate) ==> r == Failure(InvalidDate(endDate.value)))
      && (category in Categories && DateArgOk(startDate) && DateArgOk(endDate) && !IsCode(language)
          ==> r == Failure(InvalidLanguage))
      && ((category in Categories && DateArgOk(startDate) && DateArgOk(endDate) && IsCode(language)
           && Given(country) && !IsCode(country.value)) ==> r == Failure(InvalidCountry))
      && ((category in Categories && DateArgOk(startDate) && DateArgOk(endDate) && IsCode(language)
           && (Given(country) ==> IsCode(country.value))) <==> r.Success?)
  {
    ConvertGivenOk(startDate);
    ConvertGivenOk(endDate);
  }

  /** get_top_headlines succeeds only past every check, with the dict built from
      the converted dates. */
  lemma HeadlinesQueryPassed(category: string, language: string, country: Option<string>,
                             startDate: Option<string>, endDate: Option<string>, query: Option<string>)
    requires HeadlinesQuery(category, language, country, startDate, endDate, query).Success?
    ensures && category in Categories && ConvertGiven(startDate).Success? && ConvertGiven(endDate).Success?
            && IsCode(language)
            && HeadlinesQuery(category, language, country, startDate, endDate, query).value
               == HeadlinesParams(category, language, country, ConvertGiven(startDate).value,
                                  ConvertGiven(endDate).value, query)
  {
  }

  lemma HeadlinesFixedContents(category: string, language: string)
    ensures var fixed := HeadlinesFixed(category, language);
      && fixed.keys == ["category", "lang", "max"]
      && "category" in fixed.vals && "lang" in fixed.vals && "max" in fixed.vals
      && NoFilterKey(fixed) && "q" !in fixed.vals && ApiKeyName !in fixed.vals
      && fixed.vals["category"] == Str(category) && fixed.vals["lang"] == Str(Lower(language))
      && fixed.vals["max"] == Number(10)
  {
    var p1 := Empty.Put("category", Str(category));
    assert NoFilterKey(p1) && "q" !in p1.vals;
    var p2 := p1.Put("lang", Str(Lower(language)));
    assert p2.keys == ["category", "lang"] && NoFilterKey(p2) && "q" !in p2.vals && ApiKeyName !in p2.vals;
  }

  /** The dict get_top_headlines builds, entry by entry. */
  lemma HeadlinesParamsContents(category: string, language: string, country: Option<string>,
                                from: Option<string>, to: Option<string>, query: Option<string>)
    ensures var p := HeadlinesParams(category, language, country, from, to, query);
      && p.keys == ["category", "lang", "max"] + FilterKeys(Given(country), from.Some?, to.Some?)
                   + (if Given(query) then ["q"] else [])
      && "category" in p.vals && "lang" in p.vals && "max" in p.vals && ApiKeyName !in p.vals
      && p.vals["category"] == Str(category)
      && p.vals["lang"] == Str(Lower(language))
      && p.vals["max"] == Number(10)
      && FilterEntries(p, country, from, to)
      && ("q" in p.vals <==> Given(query))
      && (Given(query) ==> p.vals["q"] == Str(Strip(query.value)))
  {
    HeadlinesFixedContents(category, language);
    var fixed := HeadlinesFixed(category, language);
    WithFiltersKeys(fixed, country, from, to);
    WithFiltersEntries(fixed, country, from, to);
    var p := WithFilters(fixed, country, from, to);
    assert "q" !in p.vals && ApiKeyName !in p.vals;
  }

  /** The parameters get_top_headlines sends: category, lang and max, the supplied
      filters, and q (trimmed, possibly to "") whenever a non-empty query is given. */
  lemma HeadlinesQueryContents(category: string, language: string, country: Option<string>,
                               startDate: Option<string>, endDate: Option<string>, query: Option<string>)
    requires HeadlinesQuery(category, language, country, startDate, endDate, query).Success?
    ensures var p := HeadlinesQuery(category, language, country, startDate, endDate, query).value;
      && p.keys == ["category", "lang", "max"] + FilterKeys(Given(country), Given(startDate), Given(endDate))
                   + (if Given(query) then ["q"] else [])
      && "category" in p.vals && "lang" in p.vals && "max" in p.vals && ApiKeyName !in p.vals
      && p.vals["category"] == Str(category) && category in Categories
      && p.vals["lang"] == Str(Lower(language)) && IsCode(Lower(language))
      && p.vals["max"] == Number(10)
      && FiltersAsSupplied(p, country, startDate, endDate)
      && ("q" in p.vals <==> Given(query))
      && (Given(query) ==> p.vals["q"] == Str(Strip(query.value)))
  {
    HeadlinesQueryPassed(category, language, country, startDate, endDate, query);
    LowerCode(language);
    ConvertedDateNames(startDate);
    ConvertedDateNames(endDate);
    var p := HeadlinesQuery(category, language, country, startDate, endDate, query).value;
    HeadlinesParamsContents(category, language, country, ConvertGiven(startDate).value, ConvertGiven(endDate).value,
                            query);
    assert FilterEntries(p, country, ConvertGiven(startDate).value, ConvertGiven(endDate).value) by {
      if Given(query) {
        assert "q" != "country" && "q" != "from" && "q" != "to";
      }
    }
    ConvertedFilters(p, country, startDate, endDate);
  }

  lemma WithFiltersValid(p: Query, country: Option<string>, from: Option<string>, to: Option<string>)
    requires p.Valid()
    ensures WithFilters(p, country, from, to).Valid()
  {
    var withCountry := if Given(country) then p.Put("country", Str(Lower(country.value))) else p;
    if Given(country) {
      PutKeepsValid(p, "country", Str(Lower(country.value)));
    }
    var withFrom := if from.Some? then withCountry.Put("from", Str(from.value)) else withCountry;
    if from.Some? {
      PutKeepsValid(withCountry, "from", Str(from.value));
    }
    if to.Some? {
      PutKeepsValid(withFrom, "to", Str(to.value));
    }
  }

  /** The dict search_news builds is a well-formed dict: no key twice, and the
      key order lists exactly the keys with a value. */
  lemma SearchQueryValid(query: string, language: string, country: Option<string>, kwargs: map<string, string>)
    requires SearchQuery(query, language, country, kwargs).Success?
    ensures SearchQuery(query, language, country, kwargs).value.Valid()
  {
    SearchQueryPassed(query, language, country, kwargs);
    var inAttr := KwargOr(kwargs, "in", DefaultIn);
    var sortBy := KwargOr(kwargs, "sort_by", DefaultSortBy);
    var p1 := Empty.Put("q", Str(Strip(query)));
    PutKeepsValid(Empty, "q", Str(Strip(query)));
    var p2 := p1.Put("lang", Str(Lower(language)));
    PutKeepsValid(p1, "lang", Str(Lower(language)));
    var p3 := p2.Put("max", Number(MaxArticles));
    PutKeepsValid(p2, "max", Number(MaxArticles));
    var p4 := p3.Put("in", Str(inAttr));
    PutKeepsValid(p3, "in", Str(inAttr));
    PutKeepsValid(p4, "sortby", Str(sortBy));
    WithFiltersValid(SearchFixed(query, language, inAttr, sortBy), country,
                     ConvertGiven(Kwarg(kwargs, "start_date")).value, ConvertGiven(Kwarg(kwargs, "end_date")).value);
  }

  /** The dict get_top_headlines builds is a well-formed dict likewise. */
  lemma HeadlinesQueryValid(category: string, language: string, country: Option<string>,
                            startDate: Option<string>, endDate: Option<string>, query: Option<string>)
    requires HeadlinesQuery(category, language, country, startDate, endDate, query).Success?
    ensures HeadlinesQuery(category, language, country, startDate, endDate, query).value.Valid()
  {
    HeadlinesQueryPassed(category, language, country, startDate, endDate, query);
    var p1 := Empty.Put("category", Str(category));
    PutKeepsValid(Empty, "category", Str(category));
    var p2 := p1.Put("lang", Str(Lower(language)));
    PutKeepsValid(p1, "lang", Str(Lower(language)));
    PutKeepsValid(p2, "max", Number(MaxArticles));
    var p := WithFilters(HeadlinesFixed(category, language), country,
                         ConvertGiven(startDate).value, ConvertGiven(endDate).value);
    WithFiltersValid(HeadlinesFixed(category, language), country,
                     ConvertGiven(startDate).value, ConvertGiven(endDate).value);
    if Given(query) {
      PutKeepsValid(p, "q", Str(Strip(query.value)));
    }
  }

  /** Validation comes first and the key second: a request goes out exactly when
      the arguments pass and a non-empty key is configured; otherwise the call
      fails with the validation error, or else with the missing-key error. */
  lemma RequestOnlyWhenValidAndKeyed(params: Result<Query, Error>, endpoint: string, key: Option<string>, ex: Exchange)
    ensures SentRequest(params, endpoint, key).Some? <==> params.Success? && key.Some? && key.value != ""
    ensures params.Failure? ==> GatewayOutcome(params, key, ex) == Failure(params.error)
    ensures params.Success? && !HasKey(key) ==> GatewayOutcome(params, key, ex) == Failure(MissingApiKey)
    ensures params.Success? && HasKey(key) ==>
              (GatewayOutcome(params, key, ex).Success? <==> ex.Response? && ex.status == 200)
  {
  }

  /** The search request carries the validated parameters unchanged, in order,
      followed by `apikey`, and goes to the /search endpoint. */
  lemma SearchRequestCarriesKey(query: string, language: string, country: Option<string>,
                                kwargs: map<string, string>, key: Option<string>)
    requires SearchQuery(query, language, country, kwargs).Success? && HasKey(key)
    ensures var p := SearchQuery(query, language, country, kwargs).value;
      var sent := SentRequest(SearchQuery(query, language, country, kwargs), "search", key);
      && sent.Some? && sent.value.url == "https://gnews.io/api/v4/search"
      && sent.value.query.keys == p.keys + ["apikey"]
      && "apikey" in sent.value.query.vals && "max" in sent.value.query.vals
      && sent.value.query.vals["apikey"] == Str(key.value)
      && (forall k :: k in p.vals ==> k in sent.value.query.vals && sent.value.query.vals[k] == p.vals[k])
      && sent.value.query.vals["max"] == Number(10)
  {
    SearchQueryContents(query, language, country, kwargs);
  }

  /** The headlines request likewise, to the /top-headlines endpoint. */
  lemma HeadlinesRequestCarriesKey(category: string, language: string, country: Option<string>,
                                   startDate: Option<string>, endDate: Option<string>, query: Option<string>,
                                   key: Option<string>)
    requires HeadlinesQuery(category, language, country, startDate, endDate, query).Success? && HasKey(key)
    ensures var p := HeadlinesQuery(category, language, country, startDate, endDate, query).value;
      var sent := SentRequest(HeadlinesQuery(category, language, country, startDate, endDate, query),
                              "top-headlines", key);
      && sent.Some? && sent.value.url == "https://gnews.io/api/v4/top-headlines"
      && sent.value.query.keys == p.keys + ["apikey"]
      && "apikey" in sent.value.query.vals && "max" in sent.value.query.vals
      && sent.value.query.vals["apikey"] == Str(key.value)
      && (forall k :: k in p.vals ==> k in sent.value.query.vals && sent.value.query.vals[k] == p.vals[k])
      && sent.value.query.vals["max"] == Number(10)
  {
    HeadlinesQueryContents(category, language, country, startDate, endDate, query);
  }

  // ---------------------------------------------------------------------------
  // Worked cases.

  lemma SearchRejectsEmptyQueries()
    ensures SearchQuery("", "en", None, map[]) == Failure(EmptyQuery)
    ensures SearchQuery("   ", "en", None, map[]) == Failure(EmptyQuery)
  {
    assert AllSpace("   ") by {
      assert forall k :: 0 <= k < 3 ==> "   "[k] == ' ';
    }
    SearchValidation("", "en", None, map[]);
    SearchValidation("   ", "en", None, map[]);
  }

  lemma SearchRejectsSortBy()
    ensures SearchQuery("ai", "en", None, map["sort_by" := "bogus"]) == Failure(InvalidSortBy)
  {
    assert !AllSpace("ai") by {
      assert !IsSpace("ai"[0]);
    }
    SearchValidation("ai", "en", None, map["sort_by" := "bogus"]);
  }

  /** The keyword `sortby` is not read: it passes validation whatever its value. */
  lemma SearchIgnoresSortbyKeyword()
    ensures SearchQuery("ai", "en", None, map["sortby" := "bogus"]).Success?
  {
    assert !AllSpace("ai") by {
      assert !IsSpace("ai"[0]);
    }
    SearchValidation("ai", "en", None, map["sortby" := "bogus"]);
  }

  lemma SearchRejectsCodes()
    ensures SearchQuery("ai", "english", None, map[]) == Failure(InvalidLanguage)
    ensures SearchQuery("ai", "en", Some("USA"), map[]) == Failure(InvalidCountry)
  {
    assert !AllSpace("ai") by {
      assert !IsSpace("ai"[0]);
    }
    assert IsCode("en") by {
      assert IsAsciiLetter("en"[0]) && IsAsciiLetter("en"[1]);
    }
    SearchValidation("ai", "english", None, map[]);
    SearchValidation("ai", "en", Some("USA"), map[]);
  }

  lemma HeadlinesCategories()
    ensures HeadlinesQuery("politics", "en", None, None, None, None) == Failure(InvalidCategory(Categories))
    ensures HeadlinesQuery("business", "en", None, None, None, None).Success?
  {
    assert IsCode("en") by {
      assert IsAsciiLetter("en"[0]) && IsAsciiLetter("en"[1]);
    }
    assert "business" == Categories[3];
    HeadlinesValidation("politics", "en", None, None, None, None);
    HeadlinesValidation("business", "en", None, None, None, None);
  }

  /** search_news("climate change", language="fr", start_date="2024-01-01"). */
  lemma SearchClimateChange()
    ensures var r := SearchQuery("climate change", "fr", None, map["start_date" := "2024-01-01"]);
      && r.Success?
      && "lang" in r.value.vals && r.value.vals["lang"] == Str("fr")
      && "from" in r.value.vals && r.value.vals["from"] == Str("2024-01-01T00:00:00.000Z")
      && "to" !in r.value.vals
      && "max" in r.value.vals && r.value.vals["max"] == Number(10)
  {
    var kwargs := map["start_date" := "2024-01-01"];
    assert !AllSpace("climate change") by {
      assert !IsSpace("climate change"[0]);
    }
    assert IsCode("fr") by {
      assert IsAsciiLetter("fr"[0]) && IsAsciiLetter("fr"[1]);
    }
    assert Lower("fr") == "fr";
    AcceptJanFirst();
    SearchValidation("climate change", "fr", None, kwargs);
    SearchQueryPassed("climate change", "fr", None, kwargs);
    SearchParamsContents("climate change", "fr", None, DefaultIn, DefaultSortBy,
                         Some("2024-01-01T00:00:00.000Z"), None);
  }

  /** With the default language and no other argument, search_news passes
      validation exactly for a query that is not blank. */
  lemma SearchDefaultsPass(query: string)
    ensures SearchQuery(query, DefaultLanguage, None, map[]).Success? <==> !AllSpace(query)
  {
    assert IsCode(DefaultLanguage) by {
      assert IsAsciiLetter(DefaultLanguage[0]) && IsAsciiLetter(DefaultLanguage[1]);
    }
    SearchValidation(query, DefaultLanguage, None, map[]);
  }

  /** With the default category and language, get_top_headlines passes validation
      whatever the query. */
  lemma HeadlinesDefaultsPass(query: Option<string>)
    ensures HeadlinesQuery(DefaultCategory, DefaultLanguage, None, None, None, query).Success?
  {
    assert IsCode(DefaultLanguage) by {
      assert IsAsciiLetter(DefaultLanguage[0]) && IsAsciiLetter(DefaultLanguage[1]);
    }
    assert DefaultCategory == Categories[0];
    HeadlinesValidation(DefaultCategory, DefaultLanguage, None, None, None, query);
  }
}
