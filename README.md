# GNews MCP server handlers, modelled in Dafny

This project models the deterministic part of `gnews_mcp_server/handlers.py`, the
handler module of an MCP server that exposes two news tools over the GNews REST API:

- `validate_and_convert_date` turns a `YYYY-MM-DD` argument into the midnight UTC
  timestamp `YYYY-MM-DDT00:00:00.000Z` the API expects, or raises.
- `make_gnews_request` checks that an API key is configured, writes it into the
  caller's parameter dict as `apikey`, issues the GET, and turns a non-200 answer
  into an error whose text comes from the body, the raw text or the status code.
- `search_news` and `get_top_headlines` validate their arguments in a fixed order,
  build the query dict, call the gateway and normalise the returned articles into
  fixed-shape records with a total.

The modules follow that structure:

- `Wrappers` holds `Option` and `Result`.
- `Text` holds ASCII `strip`, `lower`, `isalpha` and decimal digits.
- `Errors` holds the raised errors and their messages.
- `Dates` holds the date normaliser.
- `QueryParams` holds the ordered parameter dict: the value `Query` and the mutable `Params` class.
- `Upstream` holds the JSON body and the exchange.
- `Gateway` holds `make_gnews_request`.
- `Normalize` holds the article normalisation.
- `Handlers` holds the two tools.

The HTTP exchange is an input. It is either a transport failure, or a status, an optional parsed body and
the raw text. The configured key is an `Option<string>` input. Each tool returns
its result together with the request it issued (`None` when none is issued), so
that "no request before the key check" can be stated.

Date parsing follows CPython's `strptime` for `%Y-%m-%d`:

- `%Y` is exactly four digits.
- `%m` accepts `10`–`12`, `01`–`09` or a single digit `1`–`9`; the first alternative that matches wins.
- `%d` accepts `30`–`31`, `10`–`29`, `01`–`09`, a single non-zero digit `1`–`9`, or a space followed by a non-zero digit (`"2024-01- 5"`).
- Text left over after the day is rejected.
- Year 0 is rejected, because datetime years run from 1 to 9999.

`Dates.SpellsDate(s, dt)` is the reference definition of "s is one of the spellings of the valid date dt". The
parser is proved equivalent to it.

Two points of the code are easy to misread:

- The docstring of `search_news` (`handlers.py:101`) names the keyword `sortby`, but the code reads the sort
  order from the keyword `sort_by` (`handlers.py:113`). The model follows the code: `sortby` is ignored, so
  `search_news("ai", sortby="bogus")` passes validation (`Handlers.SearchIgnoresSortbyKeyword`).
- A non-200 answer with an unparsable body fails with the raw response text when that text is non-empty, and
  with `"HTTP <status>"` only when it is empty (`handlers.py:75`, `Gateway.GatewayExamples`).

## Model

| member | source | states |
|---|---|---|
| Dates.DaysInMonth | gnews_mcp_server/handlers.py:36 | every month has 28 to 31 days, and 29 exactly for February of a Gregorian leap year |
| Dates.ParseDate | gnews_mcp_server/handlers.py:36 | whatever `strptime(s, "%Y-%m-%d")` accepts is a valid calendar date with year 1..9999 |
| Dates.FormatDate | gnews_mcp_server/handlers.py:38 | the printed date is ten characters with `-` at positions 4 and 7 |
| Dates.ValidateAndConvertDate | gnews_mcp_server/handlers.py:34-42 | a failure is `InvalidDate` carrying the input itself; a success is 24 characters ending in `T00:00:00.000Z` |
| Dates.ParseDateIff | gnews_mcp_server/handlers.py:36 | the parser accepts s with result dt if and only if s is a spelling of the valid date dt (both directions) |
| Dates.FormatDateParses | gnews_mcp_server/handlers.py:36-38 | parsing the zero-padded form of a valid date gives that date back (round trip) |
| Dates.SpellingParses | gnews_mcp_server/handlers.py:36 | every accepted spelling (padded, unpadded or space-padded month and day) of a valid date parses to that date |
| Dates.ParsedIsSpelling | gnews_mcp_server/handlers.py:36 | whatever parses is one of the spellings of the date it parses to |
| Dates.ConvertDateAccepts | gnews_mcp_server/handlers.py:34-38 | conversion yields the midnight timestamp of dt if and only if the input spells dt |
| Dates.ConvertDateRejects | gnews_mcp_server/handlers.py:39-42 | conversion fails with the input quoted if and only if the input spells no valid date |
| Dates.CanonicalInputReappears | gnews_mcp_server/handlers.py:38 | the output's first ten characters are the input exactly when the input is the ten-character padded form |
| Dates.SpellingConverts | gnews_mcp_server/handlers.py:34-38 | any spelling of a valid date converts to that date's midnight timestamp |
| Dates.TwoDigitOfPad2 | gnews_mcp_server/handlers.py:38 | the two-digit field printed for n reads back as n |
| Dates.Pad2OfTwoDigit | gnews_mcp_server/handlers.py:36-38 | reading two digits and printing the value zero-padded gives the same two digits |
| Dates.AcceptCanonical | gnews_mcp_server/handlers.py:41 | `2024-01-15` converts to `2024-01-15T00:00:00.000Z`, the example in the error text |
| Dates.AcceptJanFirst | gnews_mcp_server/handlers.py:34-38 | `2024-01-01` converts to `2024-01-01T00:00:00.000Z` |
| Dates.AcceptLeapDay | gnews_mcp_server/handlers.py:34-38 | 29 February of the leap year 2024 is accepted |
| Dates.AcceptUnpadded | gnews_mcp_server/handlers.py:36-38 | `2024-1-5` is accepted and re-padded to `2024-01-05T00:00:00.000Z` |
| Dates.AcceptSpacePadded | gnews_mcp_server/handlers.py:36-38 | `2024-01- 5` is accepted and re-padded to `2024-01-05T00:00:00.000Z` |
| Dates.RejectFeb29 | gnews_mcp_server/handlers.py:39-42 | 29 February 2023 is rejected with the input quoted |
| Dates.RejectSep | gnews_mcp_server/handlers.py:36 | `/` separators are rejected |
| Dates.RejectTrailing | gnews_mcp_server/handlers.py:36 | trailing text after the day is rejected |
| Dates.RejectMonth13 | gnews_mcp_server/handlers.py:36 | month 13 is rejected |
| Dates.RejectApril31 | gnews_mcp_server/handlers.py:36 | 31 April is rejected |
| Dates.RejectDay35 | gnews_mcp_server/handlers.py:36 | day 35 is rejected |
| Dates.RejectCenturyLeapDay | gnews_mcp_server/handlers.py:36 | 29 February 1900 is rejected, since 1900 is not a leap year |
| Dates.RejectYearZero | gnews_mcp_server/handlers.py:36 | year 0000 is rejected |
| Text.Strip | gnews_mcp_server/handlers.py:116 | `strip()` never lengthens its input, and what it returns neither starts nor ends with whitespace |
| Text.StripLeadingCut | gnews_mcp_server/handlers.py:116 | leading strip removes exactly a maximal all-whitespace prefix |
| Text.StripTrailingCut | gnews_mcp_server/handlers.py:116 | trailing strip removes exactly a maximal all-whitespace suffix |
| Text.StripIsTrimmedSlice | gnews_mcp_server/handlers.py:141 | `strip()` returns a slice of the input with whitespace only around it |
| Text.StripEmptyIffBlank | gnews_mcp_server/handlers.py:116 | a string strips to empty if and only if it is all whitespace (the empty string included) |
| Text.Lower | gnews_mcp_server/handlers.py:142 | `lower()` keeps the length, leaves no upper-case letter and keeps which characters are letters |
| Text.DecimalRoundTrip | gnews_mcp_server/handlers.py:75 | the decimal status code in `HTTP <status>` reads back as the status |
| Text.Decimal | gnews_mcp_server/handlers.py:75 | the printed status is non-empty digits with no leading zero |
| Errors.Message | gnews_mcp_server/handlers.py:40-221 | the text of every error raised (handlers.py:40-42, 48-50, 76, 81, 117, 129, 133, 137, 221) is non-empty; the date message is `Invalid date format: ` then the rejected input verbatim then the format hint; an API error message is `GNews API error: ` then the detail |
| QueryParams.PutKeepsValid | gnews_mcp_server/handlers.py:53 | dict assignment sets the key and no other entry, keeps keys distinct and in step with the entries, and appends a new key last |
| QueryParams.Params.Set | gnews_mcp_server/handlers.py:53 | assignment in place leaves the dict equal to the old dict with the key assigned |
| Gateway.Respond | gnews_mcp_server/handlers.py:60-81 | success exactly on status 200, with the parsed body passed on unchanged; every other status fails with the API error whose text `ApiErrorMessage` derives from that response; a transport failure is a request error |
| Gateway.ApiErrorMessage | gnews_mcp_server/handlers.py:69-76 | the text is the first listed error, "Unknown API error", the raw text or an `HTTP ` status line, and is empty only when the API listed an empty first error |
| Gateway.MakeGnewsRequest | gnews_mcp_server/handlers.py:45-78 | with no key or an empty key it fails before any request and leaves the dict alone; otherwise the dict gains `apikey` and nothing else changes, and the request goes to `<base>/<endpoint>` with that dict |
| Gateway.ApiErrorMessageSource | gnews_mcp_server/handlers.py:69-76 | the message is `errors[0]`, else "Unknown API error" for a null or empty list, else the raw text, else `HTTP ` followed by the status in decimal |
| Gateway.GatewayExamples | gnews_mcp_server/handlers.py:69-76 | 403 with `{"errors":["invalid api key"]}` gives "invalid api key"; 500 with an empty text gives "HTTP 500"; 500 with a text gives the text; an empty list gives "Unknown API error" |
| Normalize.SearchEnvelopeOf | gnews_mcp_server/handlers.py:159-179 | a failure is always a malformed response; a success needs a parsed body with non-null `articles`, keeps the number of upstream articles and reports upstream's total or the count |
| Normalize.HeadlinesEnvelopeOf | gnews_mcp_server/handlers.py:259-280 | the same for headlines |
| Normalize.NormalizeSearchArticles | gnews_mcp_server/handlers.py:160-174 | the loop builds, in order, one record per upstream article, or fails on a null `source` |
| Normalize.NormalizeHeadlineArticles | gnews_mcp_server/handlers.py:260-275 | the same for headlines, each record adding `language` from the upstream `lang` |
| Normalize.SearchEnvelope | gnews_mcp_server/handlers.py:159-179 | the returned envelope is the specified search normalisation of the gateway's body |
| Normalize.HeadlinesEnvelope | gnews_mcp_server/handlers.py:259-280 | the returned envelope is the specified headlines normalisation of the gateway's body |
| Normalize.SearchEnvelopeShape | gnews_mcp_server/handlers.py:160-179 | same length and order as upstream `articles` (empty when absent); every field is taken from the matching upstream record; the total is upstream's when present, null when upstream's is null, and the count when it is missing |
| Normalize.HeadlinesEnvelopeShape | gnews_mcp_server/handlers.py:260-280 | the same for headlines, plus `language` equal to upstream `lang` |
| Normalize.SearchEnvelopeFailsOnlyOnShape | gnews_mcp_server/handlers.py:159-179 | normalisation fails, always as a malformed response, exactly for an unparsed body, a null `articles` or an article with a null `source` |
| Normalize.HeadlinesEnvelopeFailsOnlyOnShape | gnews_mcp_server/handlers.py:259-280 | the same for headlines |
| Handlers.ConvertGiven | gnews_mcp_server/handlers.py:122-125 | an absent or empty date gives no filter; a failure only comes from a given date and quotes it; a given date that passes yields a value |
| Handlers.ConvertGivenOk | gnews_mcp_server/handlers.py:120-125 | a date argument passes exactly when it is absent, empty or a calendar date |
| Handlers.SearchQuery | gnews_mcp_server/handlers.py:107-154 | search_news fails only with an empty-query, date, sort, language or country error, and succeeds only for a non-blank query and a two-letter language |
| Handlers.SearchQueryValid | gnews_mcp_server/handlers.py:140-154 | the dict search_news builds has no key twice and its key order lists exactly its keys |
| Handlers.SearchValidation | gnews_mcp_server/handlers.py:115-137 | a blank query, a bad start date, a bad end date, a `sort_by` outside the two options, a language that is not two letters and a given country that is not two letters are rejected in that order with their own errors; success exactly when all pass |
| Handlers.SearchQueryContents | gnews_mcp_server/handlers.py:107-154 | the dict has keys q, lang, max, in, sortby then country, from, to in that order, each filter present exactly when supplied; q is the stripped query, lang the lowered language, max 10, country lowered, from and to the midnight timestamps of the dates given |
| Handlers.SearchParamsContents | gnews_mcp_server/handlers.py:140-154 | the dict built after validation holds exactly the fixed entries then the supplied filters, with their values |
| Handlers.SearchReadsOnlyKnownKwargs | gnews_mcp_server/handlers.py:108-113 | only the keywords `in`, `start_date`, `end_date` and `sort_by` affect the outcome: `max` or `sortby` change nothing |
| Handlers.WithFiltersKeys | gnews_mcp_server/handlers.py:148-154 | the optional filters are appended as country, from, to in that order, each only when supplied |
| Handlers.WithFilters | gnews_mcp_server/handlers.py:148-154 | on a dict without filter keys, country is present exactly when given (lowered), from and to exactly when converted, each with its value |
| Handlers.WithFiltersEntries | gnews_mcp_server/handlers.py:148-154 | adding the filters keeps every other entry and adds no key but country, from and to |
| Handlers.WithFiltersValid | gnews_mcp_server/handlers.py:148-154 | adding the filters keeps the dict well formed |
| Handlers.ConvertedFilters | gnews_mcp_server/handlers.py:119-125 | `from` and `to` hold the midnight timestamps of the dates the arguments spell |
| Handlers.HeadlinesValidation | gnews_mcp_server/handlers.py:208-237 | a category outside the nine is rejected first, then bad dates, language and country in that order; success exactly when all pass |
| Handlers.HeadlinesQuery | gnews_mcp_server/handlers.py:206-254 | get_top_headlines fails only with a category, date, language or country error, and succeeds only for one of the nine categories and a two-letter language |
| Handlers.HeadlinesQueryValid | gnews_mcp_server/handlers.py:240-254 | the dict get_top_headlines builds has no key twice and its key order lists exactly its keys |
| Handlers.HeadlinesQueryContents | gnews_mcp_server/handlers.py:206-254 | the dict has category, lang, max 10, then the supplied filters, then q whenever a non-empty query is given, stripped (so a blank query gives q = "") |
| Handlers.HeadlinesParamsContents | gnews_mcp_server/handlers.py:240-254 | the dict built after validation holds category, lowered lang, max 10, the supplied filters and q when a query is given |
| Handlers.RequestOnlyWhenValidAndKeyed | gnews_mcp_server/handlers.py:47-53 | a request is issued exactly when validation passes and a non-empty key is configured; a validation error wins over the missing-key error |
| Handlers.SearchRequestCarriesKey | gnews_mcp_server/handlers.py:53-60 | the search request goes to `https://gnews.io/api/v4/search` with the validated dict unchanged, in order, plus `apikey` last, and max 10 |
| Handlers.HeadlinesRequestCarriesKey | gnews_mcp_server/handlers.py:53-60 | the headlines request goes to `https://gnews.io/api/v4/top-headlines` likewise |
| Handlers.CheckSearch | gnews_mcp_server/handlers.py:115-137 | the checks pass exactly when each check passes, the error is that of the first failing check, and on success the converted dates are returned |
| Handlers.CheckHeadlines | gnews_mcp_server/handlers.py:220-237 | the same for the headlines checks, the category first |
| Handlers.AddFilters | gnews_mcp_server/handlers.py:148-154 | the filters are added to the dict in place as specified |
| Handlers.BuildSearchParams | gnews_mcp_server/handlers.py:140-154 | the dict built key by key equals the specified search dict |
| Handlers.BuildHeadlinesParams | gnews_mcp_server/handlers.py:240-254 | the dict built key by key equals the specified headlines dict |
| Handlers.FetchSearch | gnews_mcp_server/handlers.py:157-179 | the gateway call plus normalisation yields the specified request and envelope; the dict afterwards holds `apikey` added to it when a key is configured and is unchanged otherwise |
| Handlers.FetchHeadlines | gnews_mcp_server/handlers.py:257-280 | the same for headlines |
| Handlers.SearchNews | gnews_mcp_server/handlers.py:88-179 | search_news issues exactly the specified request and returns exactly the specified outcome |
| Handlers.GetTopHeadlines | gnews_mcp_server/handlers.py:182-280 | get_top_headlines likewise |
| Handlers.SearchRejectsEmptyQueries | gnews_mcp_server/handlers.py:116-117 | `""` and `"   "` are rejected as empty queries |
| Handlers.SearchRejectsSortBy | gnews_mcp_server/handlers.py:128-129 | `sort_by="bogus"` is rejected |
| Handlers.SearchIgnoresSortbyKeyword | gnews_mcp_server/handlers.py:113 | `sortby="bogus"` is not read and passes |
| Handlers.SearchRejectsCodes | gnews_mcp_server/handlers.py:132-137 | language `english` and country `USA` are rejected |
| Handlers.HeadlinesCategories | gnews_mcp_server/handlers.py:209-221 | `politics` is rejected and `business` passes |
| Handlers.SearchDefaultsPass | gnews_mcp_server/handlers.py:89 | with the default language `en` and nothing else, search_news passes validation exactly for a non-blank query |
| Handlers.HeadlinesDefaultsPass | gnews_mcp_server/handlers.py:183-184 | with the default category `general` and language `en`, get_top_headlines passes validation whatever the query |
| Handlers.SearchClimateChange | gnews_mcp_server/handlers.py:107-154 | searching "climate change" in `fr` from `2024-01-01` sends lang=fr, from=2024-01-01T00:00:00.000Z, max=10 and no `to` |

## Left out

- The HTTP exchange itself (`httpx.AsyncClient().get`), `async`/`await`, and loading the key from the environment and `.env`: the exchange and the key are inputs.
- JSON decoding by `response.json()`: the body is either a parsed `Body` or `None`. A JSON value that is not an object, and an `errors` member that is not a list of strings, are not modelled.
- The catch-all re-wrapping of unexpected exceptions into "Unexpected error: …" (handlers.py:82-85): it depends on library exception types. Only transport failures (`httpx.RequestError`) are modelled, as `RequestFailed`.
- The AttributeError or TypeError that Python raises on a 200 body without the expected shape (an unparsable body, a null `articles`, a null `source`) is modelled as one `MalformedResponse` error, not by its Python type or text.
- Text.Lower: ASCII only; Python's Unicode-aware `lower()` is not modelled.
- Handlers.IsCode and Text.IsAlpha: ASCII letters only; `isalpha()` on non-ASCII letters is not modelled.
- Text.Strip: strips ASCII whitespace (space, tab to carriage return, and the file, group, record and unit separators) only; Unicode whitespace is not modelled.
- Dates.ParseDate: ASCII digits only; `strptime`'s Unicode `\d` is not modelled.
- Dates.FormatDate: years 1 to 999 are zero-padded to four digits. `strftime("%Y")` is platform dependent there.
- Handlers.SearchNews: keyword values are strings. An explicit `None` passed for `in`, `sort_by` or a date keyword is not modelled.
- Handlers.GetTopHeadlines: `category` and `language` are required strings; a caller that omits them passes `Handlers.DefaultCategory` and `Handlers.DefaultLanguage`. An explicit `None` category, which the source rejects with the category error, is not expressible. `country`, the dates and `query` are `Option<string>`. Extra keyword arguments, which the source accepts and ignores, are not inputs.
- Handlers.SearchNews: `language` is a required string; a caller that omits it passes `Handlers.DefaultLanguage`.
- The order in which httpx serialises the query string is outside the model. The model states the order of the keys in the dict.
- The `TOOL_FUNCTIONS` registry (handlers.py:284-287) is dispatch glue with no behaviour of its own.
