# Search service API — a Dafny model

The search service answers three kinds of request against an Elasticsearch index of
accommodations and destinations:

- an accommodation search by free text, by destination or by name, paged;
- a type-ahead suggestion request that merges accommodation-name and destination
  completions;
- click registrations on a search result or on a suggestion.

Results and suggestions are kept in a process-wide in-memory cache with an absolute expiry.
Every search, every display of suggestions and every click is queued as a search event for
a background logger.

The model covers the request logic around the index and the queue:

- the two search orchestrators (`AccommodationSearch`, `SuggestionSearch`) and the two
  click services (`Interaction`);
- the fluent Elasticsearch query builder (`QueryBuilding`);
- the destination-suggestion payload and reply extraction (`DestinationSuggestions`,
  `Repositories`);
- the coordinate parser (`CoordinateParsing`) and the hit-document mapper (`Mapping`);
- the Coordinate value object (`Coordinates`) and the validating entity factories
  (`Entities`);
- the search events and the log queue (`Events`);
- the request validators (`Dto`, `Dtos`);
- the API response envelope (`ApiResponses`) and the exception-handling middleware
  (`ExceptionHandling`).

Supporting modules are:

- `Wrappers` (Option/Result);
- `Primitives` (Guid, Int32, the exceptions and their type names and messages);
- `Text` (the .NET whitespace test, Trim, Split/Join, integer rendering and parsing,
  Distinct);
- `Json`, a JSON value whose objects are ordered member lists. A lookup finds the last
  member with the name. An update replaces the member in place or appends it, as a
  `Dictionary` does.
- `Caching`, a typed cache whose entries carry an expiry time.

Each orchestrator is modelled twice:

- as a pure step function over the shared state (`Search`, `GetSuggestions`);
- as a class over a shared `MemoryCache` and `LogQueue` that performs the same steps one
  at a time. Its method is proved to change the state exactly as the step function says.

The properties of a call (cache hit, cache miss, errors) are lemmas about the step
function. So are the properties of two calls (a repeat within the cache lifetime is a hit).

Values that come from outside the program are parameters of the model:

- `Guid.NewGuid`, `DateTime.UtcNow` and the stopwatch reading;
- the configured cache lifetimes;
- the repository queries;
- the HTTP reply;
- the parsers `double.TryParse`, `Guid.Parse`, `Enum.TryParse` and `JsonDocument.Parse`.

## Model

| member | source | states |
|---|---|---|
| AccommodationSearch.Search | SearchService.Application/Services/AccommodationSearchService.cs:25-101 | An invalid request fails with the validator's failures and leaves the state unchanged. The queue only ever grows by one event, and a success queues exactly one `SearchPerformed` whose count is the number of returned items. At most one repository query is recorded. The response's page is the request's and its count is its item count. |
| AccommodationSearch.AccommodationSearchService.SearchAccommodations | SearchService.Application/Services/AccommodationSearchService.cs:25-101 | The method changes the shared cache, the log queue and the repository-call record, and returns a result, exactly as `Search` does on the old state. |
| AccommodationSearch.AccommodationSearchService.CacheLookup | SearchService.Application/Services/AccommodationSearchService.cs:105-109 | It finds a value exactly when a live entry holding a search result is stored under the key, and that value is the stored one. |
| AccommodationSearch.CacheKeyRoundTrip | SearchService.Application/Services/AccommodationSearchService.cs:37 | The key `search:{query}:{page}:{type}` parses back into its query, page and type text, even when the query contains ':'. |
| AccommodationSearch.CacheKeyInjective | SearchService.Application/Services/AccommodationSearchService.cs:37 | Two searches share a cache key only if their query, page and mode are equal. Limit and identifiers play no part. |
| AccommodationSearch.Dispatch | SearchService.Application/Services/AccommodationSearchService.cs:111-137 | FreeSearch queries the fields destinationName.ngram and name.ngram. ByDestination queries destinationName and ByName queries name. Each query carries the request's query, page and limit. Any other mode fails with InvalidOperationException. |
| AccommodationSearch.DispatchSeparatesModes | SearchService.Application/Services/AccommodationSearchService.cs:111-137 | Two different named modes produce different repository queries. |
| AccommodationSearch.MapAll | SearchService.Application/Services/AccommodationSearchService.cs:139-140 | Each hit maps to one item, in order, holding the hit's id, name, full destination, type and coordinate. |
| AccommodationSearch.Response | SearchService.Application/Services/AccommodationSearchService.cs:73-82 | The response holds the items, their count, the total, the request's page, and the session and search ids (Guid.Empty when missing). |
| AccommodationSearch.Performed | SearchService.Application/Services/AccommodationSearchService.cs:85-92 | The queued event is a SearchPerformed with the request's query, page, session and search id, and the given count and elapsed time. |
| AccommodationSearch.SearchHit | SearchService.Application/Services/AccommodationSearchService.cs:38-62 | On a hit: no repository call and no cache change. One SearchPerformed is queued with elapsed time 0 and the cached count. The response carries the cached items and total. |
| AccommodationSearch.SearchMissQueries | SearchService.Application/Services/AccommodationSearchService.cs:65-67 | A miss records exactly the query the mode selects. If that query raises, nothing is queued or cached and its error is returned. |
| AccommodationSearch.SearchMissAnswers | SearchService.Application/Services/AccommodationSearchService.cs:65-100 | An answered miss queues one SearchPerformed counting the hits. With a positive lifetime it returns the mapped items and total and caches them under the key until now + lifetime. Otherwise the cache is unchanged and the expiry error is returned. |
| AccommodationSearch.MissingIdentifiersAreEmpty | SearchService.Application/Services/AccommodationSearchService.cs:32-87 | A missing session or search id is Guid.Empty in the response meta and in the queued event. |
| AccommodationSearch.RepeatWithinLifetimeHits | SearchService.Application/Services/AccommodationSearchService.cs:37-98 | After a miss fills the cache, an accepted request with the same query, page and mode is a hit until expiry, whatever its limit and ids. It makes no repository call, leaves the cache unchanged, and returns the same items and total. |
| Dto.SearchTypeText | SearchService.Application/Services/AccommodationSearchService.cs:37 | A mode renders as one of its three names exactly when it is defined. No rendering contains ':'. |
| Dto.SearchTypeTextInjective | SearchService.Application/Services/AccommodationSearchService.cs:37 | Different modes render differently. |
| SuggestionSearch.GetSuggestions | SearchService.Application/Services/SuggestionSearchService.cs:23-75 | An invalid request fails with the validator's failures and leaves the state unchanged. A success queues exactly one SuggestionsShown holding the accommodation suggestions followed by the destination suggestions. At most two repository calls are recorded. |
| SuggestionSearch.SuggestionSearchService.GetSuggestionsAsync | SearchService.Application/Services/SuggestionSearchService.cs:23-75 | The method changes the cache, the queue and the call record, and returns a result, exactly as `GetSuggestions` does. |
| SuggestionSearch.SuggestionSearchService.CacheLookup | SearchService.Application/Services/SuggestionSearchService.cs:79-82 | It finds a value exactly when a live entry holding a suggestion response is stored under the key. |
| SuggestionSearch.CacheKeyRoundTrip | SearchService.Application/Services/SuggestionSearchService.cs:33 | The key `suggestion:{query}:{limit}` parses back into its query and limit. |
| SuggestionSearch.CacheKeyInjective | SearchService.Application/Services/SuggestionSearchService.cs:33 | Two suggestion requests share a key only if their query and limit are equal. |
| SuggestionSearch.KeySpacesDisjoint | SearchService.Application/Services/SuggestionSearchService.cs:33 | A search key and a suggestion key are never equal, so the two services never read each other's entries. |
| SuggestionSearch.Shown | SearchService.Application/Services/SuggestionSearchService.cs:65-69 | The event is a SuggestionsShown with the session and search id, and its suggestions are the accommodation list followed by the destination list. |
| SuggestionSearch.Response | SearchService.Application/Services/SuggestionSearchService.cs:54-62 | The response holds the session, both lists, and counts equal to their lengths. |
| SuggestionSearch.SuggestionHit | SearchService.Application/Services/SuggestionSearchService.cs:34-46 | On a hit the cached response is returned unchanged, meta included. Neither repository is called and the cache is unchanged. One SuggestionsShown is queued. |
| SuggestionSearch.SuggestionMissQueries | SearchService.Application/Services/SuggestionSearchService.cs:50-51 | A miss asks the accommodation repository first and the destination repository second, both with the query and limit. The second is not asked if the first raises. A raise from either leaves the queue and the cache unchanged. |
| SuggestionSearch.SuggestionMissAnswers | SearchService.Application/Services/SuggestionSearchService.cs:50-72 | An answered miss has counts equal to the list lengths and destination suggestions without duplicates. It queues one SuggestionsShown with both lists before the cache write. A positive lifetime then caches the response until expiry and returns it. A non-positive lifetime raises the expiration error and leaves the cache unchanged, with the event still queued. |
| SuggestionSearch.MissingSessionIsEmpty | SearchService.Application/Services/SuggestionSearchService.cs:28-66 | A missing session is Guid.Empty in the queued event. In the meta block it is Guid.Empty only on a miss. |
| SuggestionSearch.RepeatWithinLifetimeHits | SearchService.Application/Services/SuggestionSearchService.cs:33-72 | After a miss fills the cache, the same query and limit from any session get the identical response until expiry, and no repository is asked again. |
| Caching.LookupSearch | SearchService.Application/Services/AccommodationSearchService.cs:105-109 | A lookup finds a search result exactly when a live entry of that type is stored under the key. |
| Caching.LookupSuggestions | SearchService.Application/Services/SuggestionSearchService.cs:79-82 | A lookup finds a suggestion response exactly when a live entry of that type is stored under the key. |
| Caching.Stored | SearchService.Shared/Extensions/CacheExtensions.cs:7-20 | A positive duration stores the value under the key, expiring now + minutes, and leaves every other key alone. A non-positive duration fails and stores nothing. |
| Caching.MemoryCache.SetWithConfig | SearchService.Shared/Extensions/CacheExtensions.cs:7-20 | The cache's entries become what `Stored` gives, or stay unchanged when it fails. |
| Caching.StoredThenFound | SearchService.Shared/Extensions/CacheExtensions.cs:7-20 | A value just stored is found until it expires and not after. A lookup for the other record type misses. |
| QueryBuilding.ElasticsearchQueryBuilder.constructor | SearchService.Infrastructure/Helpers/QueryBuilding/ElasticSearchQueryBuilder.cs:7-10 | A new builder has an empty body, from and size 0, and no suggest section. |
| QueryBuilding.ElasticsearchQueryBuilder.WithPagination | SearchService.Infrastructure/Helpers/QueryBuilding/ElasticSearchQueryBuilder.cs:12-17 | Sets from to page × limit, wrapped as a 32-bit int, and size to limit. Nothing else changes. |
| QueryBuilding.ElasticsearchQueryBuilder.WithSize | SearchService.Infrastructure/Helpers/QueryBuilding/ElasticSearchQueryBuilder.cs:19-23 | Sets size only. |
| QueryBuilding.ElasticsearchQueryBuilder.WithMatch | SearchService.Infrastructure/Helpers/QueryBuilding/ElasticSearchQueryBuilder.cs:25-35 | The "query" slot becomes the match query (fuzziness AUTO by default). Every other slot, the paging and the suggest section are unchanged. |
| QueryBuilding.ElasticsearchQueryBuilder.WithMultiMatch | SearchService.Infrastructure/Helpers/QueryBuilding/ElasticSearchQueryBuilder.cs:37-49 | The "query" slot becomes the multi_match query over the fields. Nothing else changes. |
| QueryBuilding.ElasticsearchQueryBuilder.WithBoolQuery | SearchService.Infrastructure/Helpers/QueryBuilding/ElasticSearchQueryBuilder.cs:51-57 | The "query" slot becomes {"bool": the configured bool builder's output}. Nothing else changes. |
| QueryBuilding.ElasticsearchQueryBuilder.WithRangeQuery | SearchService.Infrastructure/Helpers/QueryBuilding/ElasticSearchQueryBuilder.cs:59-70 | The "query" slot becomes the range query on the field. Nothing else changes. |
| QueryBuilding.RangeBounds | SearchService.Infrastructure/Helpers/QueryBuilding/ElasticSearchQueryBuilder.cs:61-63 | gte and lte are present exactly when given, with the given values. The keys are exactly those present, gte before lte. |
| QueryBuilding.ElasticsearchQueryBuilder.WithTermQuery | SearchService.Infrastructure/Helpers/QueryBuilding/ElasticSearchQueryBuilder.cs:72-79 | The "query" slot becomes the term query. Nothing else changes. |
| QueryBuilding.ElasticsearchQueryBuilder.WithSuggestion | SearchService.Infrastructure/Helpers/QueryBuilding/ElasticSearchQueryBuilder.cs:81-95 | The suggest section comes into existence if needed. The named completion suggester (fuzziness 2 by default) is set, replacing an entry of the same name and keeping entries of other names. |
| QueryBuilding.ElasticsearchQueryBuilder.WithSort | SearchService.Infrastructure/Helpers/QueryBuilding/ElasticSearchQueryBuilder.cs:97-101 | The "sort" slot becomes the sort clause ("asc" by default). Nothing else changes. |
| QueryBuilding.ElasticsearchQueryBuilder.WithSourceFields | SearchService.Infrastructure/Helpers/QueryBuilding/ElasticSearchQueryBuilder.cs:103-107 | The "_source" slot becomes the field list. Nothing else changes. |
| QueryBuilding.ElasticsearchQueryBuilder.Build | SearchService.Infrastructure/Helpers/QueryBuilding/ElasticSearchQueryBuilder.cs:109-128 | The output has the keys from and size, then the body's keys in insertion order, then suggest exactly when a suggestion was added. Each body slot and the suggest section are copied. The builder is not changed. |
| QueryBuilding.PayloadPaging | SearchService.Infrastructure/Helpers/QueryBuilding/ElasticSearchQueryBuilder.cs:111-115 | The payload's from and size are the builder's. |
| QueryBuilding.PayloadBody | SearchService.Infrastructure/Helpers/QueryBuilding/ElasticSearchQueryBuilder.cs:117-120 | Every body slot of the payload equals the builder's. |
| QueryBuilding.PayloadSuggest | SearchService.Infrastructure/Helpers/QueryBuilding/ElasticSearchQueryBuilder.cs:122-125 | suggest is present exactly when the builder has a suggest section, and holds it. |
| QueryBuilding.PayloadKeys | SearchService.Infrastructure/Helpers/QueryBuilding/ElasticSearchQueryBuilder.cs:109-128 | The payload's keys are unique and ordered from, size, the body's keys, then suggest when present. |
| QueryBuilding.LastQueryWins | SearchService.Infrastructure/Helpers/QueryBuilding/ElasticSearchQueryBuilder.cs:25-79 | Of two writes to the "query" slot, the built payload carries the second. |
| QueryBuilding.BoolQueryBuilder.constructor | SearchService.Infrastructure/Helpers/QueryBuilding/ElasticSearchQueryBuilder.cs:133-136 | A new bool builder has four empty clause lists. |
| QueryBuilding.BoolQueryBuilder.Must | SearchService.Infrastructure/Helpers/QueryBuilding/ElasticSearchQueryBuilder.cs:138-142 | Appends the clause to must. The other lists are unchanged, and the builder returns itself. |
| QueryBuilding.BoolQueryBuilder.Should | SearchService.Infrastructure/Helpers/QueryBuilding/ElasticSearchQueryBuilder.cs:144-148 | Appends the clause to should. The other lists are unchanged. |
| QueryBuilding.BoolQueryBuilder.MustNot | SearchService.Infrastructure/Helpers/QueryBuilding/ElasticSearchQueryBuilder.cs:150-154 | Appends the clause to must_not. The other lists are unchanged. |
| QueryBuilding.BoolQueryBuilder.Filter | SearchService.Infrastructure/Helpers/QueryBuilding/ElasticSearchQueryBuilder.cs:156-160 | Appends the clause to filter. The other lists are unchanged. |
| QueryBuilding.BoolQueryBuilder.Build | SearchService.Infrastructure/Helpers/QueryBuilding/ElasticSearchQueryBuilder.cs:162-172 | The result is an object whose keys are exactly the non-empty lists among must, should, must_not and filter, in that order. Each key holds its list in insertion order. |
| QueryBuilding.BoolQueryFacts | SearchService.Infrastructure/Helpers/QueryBuilding/ElasticSearchQueryBuilder.cs:162-172 | The assembled bool object has exactly the keys of the non-empty clause lists, in the order must, should, must_not, filter, and each holds its list. |
| QueryBuilding.BoolQueryKeys | SearchService.Infrastructure/Helpers/QueryBuilding/ElasticSearchQueryBuilder.cs:164-169 | Only the non-empty clause lists get a key, in the order the source writes them. |
| DestinationSuggestions.PayloadShape | SearchService.Infrastructure/Repositories/DestinationRepository.cs:18-34 | The payload has size 0 and a destination_suggest suggester with prefix = query. Its completion has field "name", skip_duplicates true and size = limit. |
| DestinationSuggestions.Suggestions | SearchService.Infrastructure/Repositories/DestinationRepository.cs:46-74 | A non-success status raises with the status and body. An unparseable body raises a reader error. Otherwise the result is the extraction from the parsed body. |
| DestinationSuggestions.Extract | SearchService.Infrastructure/Repositories/DestinationRepository.cs:54-74 | A missing suggest, a missing or empty destination_suggest, or a first entry without options gives []. Only the first entry is read. When that entry holds an options array, the read succeeds exactly when every option has a "text" that is a string or null. The result is then every non-blank option text, each once, in the order in which the options first carry it. Every returned string is the text of some option. Any other shape has a member of the wrong JSON kind on the path and raises InvalidOperationException. |
| DestinationSuggestions.ExtractFacts | SearchService.Infrastructure/Repositories/DestinationRepository.cs:69-74 | From the texts read off the options, the result holds each non-blank text once, in first-appearance order. It contains every non-blank option text, each result string is the text of some option, and there are no more strings than options. |
| DestinationSuggestions.OptionTexts | SearchService.Infrastructure/Repositories/DestinationRepository.cs:69-71 | Reading the options succeeds exactly when each option is an object whose "text" is a string or null. It then gives one string per option, in order, with null giving "". |
| DestinationSuggestions.NonBlank | SearchService.Infrastructure/Repositories/DestinationRepository.cs:72 | Keeps exactly the texts that are not empty or whitespace-only, each as many times as it occurs, and drops every blank one. |
| Text.Distinct | SearchService.Infrastructure/Repositories/DestinationRepository.cs:73 | The result has no duplicates and the same elements as its input. Its elements come in the order of their first occurrence in the input. |
| Text.DistinctOfDistinct | SearchService.Infrastructure/Repositories/DestinationRepository.cs:73 | Distinct leaves a duplicate-free list unchanged. |
| Text.FirstOccurrenceOrderUnique | SearchService.Infrastructure/Repositories/DestinationRepository.cs:73 | Two lists in first-occurrence order with the same elements are equal, so the order Distinct keeps fixes its result. |
| DestinationSuggestions.NonBlankKeepsOrder | SearchService.Infrastructure/Repositories/DestinationRepository.cs:72 | The blank filter keeps order: two kept texts first appear in the same order before and after it. |
| DestinationSuggestions.KeptOrder | SearchService.Infrastructure/Repositories/DestinationRepository.cs:72-73 | Filtering out blanks and then removing duplicates gives each non-blank text once, in first-appearance order. |
| DestinationSuggestions.DistinctNonBlankUnique | SearchService.Infrastructure/Repositories/DestinationRepository.cs:72-73 | Any list holding each non-blank text once, in first-appearance order, is exactly what the filter and Distinct produce. |
| Repositories.GetDestinationSuggestions | SearchService.Infrastructure/Repositories/DestinationRepository.cs:14-79 | The suggestions returned have no duplicates and no blank entry. A non-success reply raises a general exception, and an unparseable body raises a reader error. A parsed success reply without suggestions gives [], and one with a member of the wrong JSON kind on the path raises InvalidOperationException. With an options array, the call succeeds exactly when every option is textual, and then returns each non-blank option text once, in option order. |
| CoordinateParsing.Parse | SearchService.Infrastructure/Helpers/Parsing/CoordinateParser.cs:8-60 | A root that is not an object raises. No coordinate member gives (0, 0). Otherwise the element decides. Every success is on the globe. |
| CoordinateParsing.ParseElement | SearchService.Infrastructure/Helpers/Parsing/CoordinateParser.cs:16-59 | An object with lat and lon gives Create(lat, lon). A string with exactly two parseable comma-separated parts gives Create(first, second). A two-element array gives Create(second, first). A non-number in those forms raises. Every other shape gives (0, 0). |
| CoordinateParsing.StructuredFormsRoundTrip | SearchService.Infrastructure/Helpers/Parsing/CoordinateParser.cs:19-52 | A valid coordinate written as {"lat","lon"} or as a GeoJSON [lon, lat] array is read back unchanged. |
| CoordinateParsing.TextFormReadsLatitudeFirst | SearchService.Infrastructure/Helpers/Parsing/CoordinateParser.cs:25-37 | The string "a,b" with parseable parts gives Create(a, b). |
| CoordinateParsing.ArrayIsLongitudeFirst | SearchService.Infrastructure/Helpers/Parsing/CoordinateParser.cs:42-52 | The array [x, y] reads as the object {lat: y, lon: x} (RFC 7946 section 3.1.1 order). |
| Text.JoinSplit | SearchService.Infrastructure/Helpers/Parsing/CoordinateParser.cs:31 | Splitting and rejoining on the separator gives the original string back. |
| Text.SplitJoin | SearchService.Infrastructure/Helpers/Parsing/CoordinateParser.cs:31 | Splitting a join of separator-free parts gives the parts back. |
| Mapping.Map | SearchService.Infrastructure/Helpers/Mapping/JsonToAccommodationMapper.cs:10-39 | A success requires every required member. The id is the parsed id string. Each text field is the member's string, or "" for null. The type is the parsed name, or the default. The coordinate is exactly CoordinateParser's. |
| Mapping.TextMember | SearchService.Infrastructure/Helpers/Mapping/JsonToAccommodationMapper.cs:16-21 | It succeeds exactly when the member is present as a string or null, and gives the string, or "" for null. |
| Mapping.MapDescribed | SearchService.Infrastructure/Helpers/Mapping/JsonToAccommodationMapper.cs:10-39 | A document that stores an accommodation maps back to that accommodation, with the type the enum parser finds (or the default). |
| Coordinates.Create | SearchService.Domain/ValueObjects/Coordinate.cs:16-29 | It accepts exactly latitudes in [-90, 90] and longitudes in [-180, 180], bounds included, and stores them unchanged. The latitude is checked first. |
| Entities.CreateSearchLog | SearchService.Domain/Entities/SearchLogEntity.cs:19-49 | A null or blank query raises. Otherwise the query is stored trimmed and non-blank, a page below 1 becomes 1, and every other field is stored as given. |
| Entities.CreateSearchLogFixpoint | SearchService.Domain/Entities/SearchLogEntity.cs:23-31 | Re-creating a log from a stored log's own fields gives the same log. |
| Text.TrimShape | SearchService.Domain/Entities/SearchLogEntity.cs:30 | Trim removes only surrounding whitespace, and its result neither starts nor ends with whitespace. |
| Text.TrimIdempotent | SearchService.Domain/Entities/SearchLogEntity.cs:30 | Trimming twice is trimming once. |
| Text.TrimEmptyIff | SearchService.Domain/Entities/SearchLogEntity.cs:23-30 | Trim gives "" exactly for all-whitespace strings. |
| Entities.CreateSuggestionLog | SearchService.Domain/Entities/SuggestionLogEntity.cs:15-27 | Only a null query raises. An empty or blank query is stored untrimmed, and every field is stored as given. |
| Entities.CreateClickLog | SearchService.Domain/Entities/ClickLogEntity.cs:25-40 | Guid.Empty raises first, then a null document id. An empty document id and any rank, negative included, are stored as given. |
| Entities.CreateDestination | SearchService.Domain/Entities/DestinationEntity.cs:33-54 | A null or empty name raises (a blank one is accepted), then a null or blank country. Everything is stored as given. |
| Entities.CreateAccommodation | SearchService.Domain/Entities/AccommodationEntity.cs:24-33 | A null or empty name raises before a null or empty address. Otherwise name, address and coordinate are stored. |
| Entities.CreateLandmark | SearchService.Domain/Entities/LandmarkEntity.cs:21-27 | Only a null or empty name raises. Name, type and coordinate are stored. |
| Entities.CreateRegion | SearchService.Domain/Entities/RegionEntity.cs:16-22 | Only a null or empty name raises. Name and count (null allowed) are stored. |
| Events.EventType | SearchService.Domain/Events/SearchEvent.cs:27-78 | Each event reports its own subtype's name, and only that name. |
| Events.NewSearchPerformed | SearchService.Domain/Events/SearchEvent.cs:27-42 | Session, search id, query, page, count and elapsed time are stored as given. |
| Events.NewResultClicked | SearchService.Domain/Events/SearchEvent.cs:44-56 | A negative index raises. Any other index is stored unchanged with the session and search id. |
| Events.NewSuggestionsShown | SearchService.Domain/Events/SearchEvent.cs:58-64 | The suggestions are stored in their given order. |
| Events.NewSuggestionClicked | SearchService.Domain/Events/SearchEvent.cs:66-78 | A negative index raises. Any other index is stored unchanged. |
| Events.LogQueue.Enqueue | SearchService.Infrastructure/Services/LogQueueService.cs:11-17 | Appends exactly the one event. |
| Interaction.AccommodationInteractionService.RegisterClickAsync | SearchService.Application/Services/AccommodationInteractionService.cs:11-22 | A non-negative index queues exactly one ResultClicked carrying the request's session, search id and index. A negative one raises and queues nothing. |
| Interaction.SuggestionInteractionService.RegisterClickAsync | SearchService.Application/Services/SuggestionInteractionService.cs:11-22 | A non-negative index queues exactly one SuggestionClicked carrying the request's session, search id and index. A negative one raises and queues nothing. |
| Dto.ValidateAccommodationRequest | SearchService.Application/Dto/GetAccommodationRequest.cs:12-28 | No failures exactly when the query is non-blank, the limit is in 1..30 and the mode is defined. Each broken rule contributes its failure, in rule order. |
| Dto.ValidateSuggestionRequest | SearchService.Application/Dto/GetSuggestionRequest.cs:12-24 | No failures exactly when the query is non-blank and the limit is in 1..3. |
| Dto.ValidateAccommodationSuggestionRequest | SearchService.Application/Dto/GetAccommodationSuggestionRequest.cs:11-23 | No failures exactly when the query is non-blank and the limit is in 1..4. |
| Dto.DefaultAccommodationSuggestionRequestRejected | SearchService.Application/Dto/GetAccommodationSuggestionRequest.cs:7-21 | A default request ("" and 0) fails on the query and on the limit. |
| Dto.NotNullNotEmpty | SearchService.Application/Dto/GetAccommodationRequest.cs:16-18 | A null string fails both rules, a blank one fails once, and any other passes. |
| Dto.LimitRules | SearchService.Application/Dto/GetAccommodationRequest.cs:20-22 | The limit passes exactly in 1..max. Otherwise it gets the one failure of the bound it breaks. |
| Dtos.Validate | SearchService.Application/Dtos/GetAccommodationRequest.cs:14-34 | The name is required only for a Name search and the destination only for a Destination search. The limit must be in 1..30 and the type defined. The failures are empty exactly when all of these hold. |
| ApiResponses.Ok | SearchService.API/Responses/ApiResponse.cs:13-17 | A success with the data, and no error, errors or trace id. |
| ApiResponses.Fail | SearchService.API/Responses/ApiResponse.cs:20-25 | A failure with the message and trace id, no data and no errors list. |
| ApiResponses.FailAll | SearchService.API/Responses/ApiResponse.cs:28-34 | A failure with the errors in order and the message, "Validation failed" by default. |
| ApiResponses.FromException | SearchService.API/Responses/ApiResponse.cs:37-43 | The error is the friendly message when given, otherwise the exception's message. The errors are [the exception's type name]. |
| ApiResponses.OnlyOkSucceeds | SearchService.API/Responses/ApiResponse.cs:13-43 | Only Ok builds a success. |
| ExceptionHandling.Classify | SearchService.API/Middlewares/ExceptionHandlingMiddleware.cs:17-57 | Statuses by exception type: validation 400 with "Validation failed" and one "Property: message" line per failure; not-found 404, unauthorized 401 and forbidden 403, each with the message; anything else 500 with "An unexpected error occurred." and [type name]. Every error response carries the trace id. |
| ExceptionHandling.FailureLines | SearchService.API/Middlewares/ExceptionHandlingMiddleware.cs:22 | One "PropertyName: ErrorMessage" line per failure, in order. |
| ExceptionHandling.HttpResponse.WriteResponse | SearchService.API/Middlewares/ExceptionHandlingMiddleware.cs:60-65 | Sets the status and the JSON content type and writes the envelope. |
| ExceptionHandling.Invoke | SearchService.API/Middlewares/ExceptionHandlingMiddleware.cs:11-58 | When the pipeline completes, the response is untouched. When it raises, the classified status, JSON content type and envelope are written. |

## Left out

- **HTTP and persistence.** Sending HTTP requests is outside the model: the destination
  POST is a function from payload to reply, and Elasticsearch is reached through the
  repository functions. Entity Framework repositories, the database context and the
  seeding of the index are not part of this model either. `AccommodationRepository`
  itself only throws `NotImplementedException`, so the accommodation repository is three
  abstract functions.
- **Background logging.** The background services that drain the channel, and the
  reflection-based `StoreLogAsync` dispatch, are not modelled. The log queue is the
  sequence of events written so far.
  - The channel is unbounded, so every write is accepted.
  - `LogQueueService` is declared over `SearchLogEntity`, but the services call a log
    queue of `SearchEvent`. The model follows the services.
- **Asynchrony.** `async`/`Task` are not modelled. Each call is one atomic step on the
  shared state. The click services' completed-task return is therefore not represented,
  and neither is any interleaving of concurrent requests on the shared cache and queue.
- **Runtime values** come in as parameters and their values are not specified:
  - `Guid.NewGuid`, `DateTime.UtcNow` and the stopwatch reading;
  - the configured cache lifetimes;
  - the request's HTTP trace identifier.
- **Floating point and parsers.** Coordinates are `real`: they are only compared, never
  computed. `double.TryParse`, the Guid parser, `Enum.TryParse` and `JsonDocument.Parse`
  are parameters, so culture rules, number syntax and JSON text syntax are not modelled.
- **Runtime message texts.** JSON accessors raise exceptions whose messages the model
  leaves empty; only their type names are modelled. `ThrowIfNegative`'s message is given
  without its trailing "Actual value was" sentence.
- **Logging.** Logger warnings and debug messages are not modelled. `SearchEvent.ToPayload`
  (reflection) is not modelled.
- **Response serialization.** `WriteAsJsonAsync` is modelled as appending the envelope to
  the response body; the JSON text written is not modelled.
- **Missing enum declarations.** The enums `AccommodationSearchType`, `AccommodationType`
  and `LandmarkType` are not part of this model.
  - The search modes are FreeSearch, ByDestination and ByName (those the dispatch names),
    plus any undefined number.
  - The older request's modes are `Name` and `Destination`.
  - The other two enums are integers with default 0.
- **Record shapes.** The response DTO record files do not match what the services
  construct. Requests and responses are modelled with the fields the services read and
  write.
  - `AccommodationEntity.Create` takes name, address and coordinate. The mapper calls an
    eight-argument factory instead, so the mapper's output is modelled as its own record,
    `IndexedAccommodation`.
  - `SuggestionMeta`'s counts are naturals: the two suggestion lists come from the
    repositories, and no bound on their length is modelled.
- **Aliasing.** Lists and dictionaries handed to the builders are copied by value in the
  model. The caller-side aliasing of the `_suggest` dictionary and of the clause lists is
  not captured. The `configure` callback of `WithBoolQuery` is modelled by passing a bool
  builder that has already been configured.
- **Superseded services.** `AccommodationService` and `SearchSuggestionService` are earlier
  revisions of the two orchestrators. Their repository calls no longer match the repository
  interface, so only the current services are modelled.
- **Wiring.** Controllers, `Program`, `RequestInfoMiddleware`, dependency injection and
  configuration are not modelled. The `LogValidity` enum
  (SearchService.Domain/Enums/LogValidity.cs) is declared, but no current code uses it.
- Caching.Stored: does not model the overflow of `TimeSpan.FromMinutes` or of the expiry
  time; the expiry is now + minutes × 60000 ms on unbounded integers.
- Coordinates.Create / CoordinateParsing.Parse: the model cannot represent NaN, because
  `real` has no NaN. In the source, every comparison with NaN is false, so the range checks
  of `Coordinate.Create` (SearchService.Domain/ValueObjects/Coordinate.cs:18 and :23) let `Create(NaN, NaN)` through, and
  `double.TryParse` accepts "NaN" in the "lat,lon" string form
  (SearchService.Infrastructure/Helpers/Parsing/CoordinateParser.cs:33-34), which
  `CoordinateParsing.ParseElement` models.
  A coordinate is therefore within range on success only in the model.
