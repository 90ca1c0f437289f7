/**
 * `AccommodationSearchService.SearchAccommodationsAsync`: validate the request, look the
 * query up in the cache, and on a miss run the query the search mode selects, map the hits,
 * queue one `SearchPerformed` event and cache the page. `Search` gives the whole effect of one
 * call on the shared state; the service class performs it step by step and is proved to do
 * exactly that.
 */
module AccommodationSearch {
  import opened Wrappers
  import opened Primitives
  import opened Text
  import opened Mapping
  import opened Events
  import opened Dto
  import opened Caching
  import opened Repositories

  // ---------------------------------------------------------------- cache key

  const KeyPrefix := "search:"

  /** The cache key: query, page and mode, in that order; limit and the identifiers play no part. */
  function CacheKey(query: string, page: Int32, t: SearchType): string
  {
    KeyPrefix + (query + ":" + IntToString(page) + ":" + SearchTypeText(t))
  }

  /** Reads a key back into its query, page and rendered mode; the query may itself contain ':'. */
  function ParseCacheKey(key: string): Option<(string, int, string)>
  {
    if |key| < |KeyPrefix| || key[..|KeyPrefix|] != KeyPrefix then None
    else
      match SplitAtLast(key[|KeyPrefix|..], ':')
      case None => None
      case Some((front, typeText)) =>
        match SplitAtLast(front, ':')
        case None => None
        case Some((query, pageText)) =>
          match ParseInt(pageText)
          case None => None
          case Some(page) => Some((query, page, typeText))
  }

  lemma CacheKeyRoundTrip(query: string, page: Int32, t: SearchType)
    ensures ParseCacheKey(CacheKey(query, page, t)) == Some((query, page, SearchTypeText(t)))
  {
    var pageText := IntToString(page);
    var body := query + ":" + pageText + ":" + SearchTypeText(t);
    SplitPrefix(KeyPrefix, body);
    SplitAtLastOf(query + ":" + pageText, SearchTypeText(t), ':');
    SplitAtLastOf(query, pageText, ':');
    IntToStringRoundTrip(page);
  }

  lemma SplitPrefix(prefix: string, body: string)
    ensures |prefix + body| >= |prefix|
    ensures (prefix + body)[..|prefix|] == prefix && (prefix + body)[|prefix|..] == body
  {
  }

  /** Two searches share a cache entry only when query, page and mode all agree. */
  lemma CacheKeyInjective(q1: string, p1: Int32, t1: SearchType, q2: string, p2: Int32, t2: SearchType)
    requires CacheKey(q1, p1, t1) == CacheKey(q2, p2, t2)
    ensures q1 == q2 && p1 == p2 && t1 == t2
  {
    CacheKeyRoundTrip(q1, p1, t1);
    CacheKeyRoundTrip(q2, p2, t2);
    SearchTypeTextInjective(t1, t2);
  }

  // ---------------------------------------------------------------- mode dispatch

  const FreeSearchFields := ["destinationName.ngram", "name.ngram"]

  const UndefinedMode := InvalidOperationException("SearchType undefined")

  /** `SearchAccommodation`: the repository query the mode selects, always with the request's query, page and limit. */
  function Dispatch(t: SearchType, query: string, page: Int32, limit: Int32): (r: Result<SearchCall, Exception>)
    ensures r.Failure? <==> !IsInEnum(t)
    ensures r.Failure? ==> r.error == UndefinedMode
    ensures r.Success? ==> r.value.query == query && r.value.page == page && r.value.limit == limit
    ensures t == FreeSearch ==> r.Success? && r.value.ByMultipleField? && r.value.fields == FreeSearchFields
    ensures t == ByDestination ==> r.Success? && r.value.ByField? && r.value.field == "destinationName"
    ensures t == ByName ==> r.Success? && r.value.ByField? && r.value.field == "name"
  {
    match t
    case FreeSearch => Success(ByMultipleField(FreeSearchFields, query, page, limit))
    case ByDestination => Success(ByField("destinationName", query, page, limit))
    case ByName => Success(ByField("name", query, page, limit))
    case Undefined(_) => Failure(UndefinedMode)
  }

  /** The three modes run three different queries. */
  lemma DispatchSeparatesModes(t: SearchType, u: SearchType, query: string, page: Int32, limit: Int32)
    requires IsInEnum(t) && IsInEnum(u) && t != u
    ensures Dispatch(t, query, page, limit) != Dispatch(u, query, page, limit)
  {
    assert "destinationName"[0] != "name"[0];
  }

  // ---------------------------------------------------------------- mapping

  /** `MapToDto`: the identifier, name, full destination, type and coordinate of a hit. */
  function MapToDto(a: IndexedAccommodation): AccommodationDto
  {
    AccommodationDto(a.id, a.name, a.fullDestination, a.accommodationType, a.coordinate)
  }

  /** `Select(MapToDto).ToList()`: one item per hit, in order. */
  function MapAll(hits: List<IndexedAccommodation>): (items: List<AccommodationDto>)
    ensures |items| == |hits|
    ensures forall i :: 0 <= i < |hits| ==> items[i] == MapToDto(hits[i])
  {
    seq(|hits|, i requires 0 <= i < |hits| => MapToDto(hits[i]))
  }

  // ---------------------------------------------------------------- one call

  function SessionOf(request: GetAccommodationRequest): Guid { request.sessionId.GetOr(EmptyGuid) }

  function SearchIdOf(request: GetAccommodationRequest): Guid { request.searchId.GetOr(EmptyGuid) }

  function KeyOf(request: GetAccommodationRequest): string
    requires request.searchQuery.Some?
  {
    CacheKey(request.searchQuery.value, request.page, request.searchType)
  }

  /** The response for a page of items: page and identifiers from the request, counts from the items. */
  function Response(request: GetAccommodationRequest, items: List<AccommodationDto>, total: Int32)
    : (r: GetAccommodationResponse)
    ensures r.accommodations == items && r.meta.resultCount == |items| && r.meta.totalResult == total
    ensures r.meta.page == request.page
    ensures r.meta.sessionId == SessionOf(request) && r.meta.searchId == SearchIdOf(request)
  {
    GetAccommodationResponse(SearchMeta(SessionOf(request), SearchIdOf(request), request.page, |items|, total), items)
  }

  /** The `SearchPerformed` event a call queues. */
  function Performed(request: GetAccommodationRequest, eventId: Guid, now: DateTime, resultCount: Int32, elapsedMs: Int64)
    : (e: SearchEvent)
    requires request.searchQuery.Some?
    ensures e.body.SearchPerformed? && e.body.query == request.searchQuery.value && e.body.page == request.page
    ensures e.sessionId == SessionOf(request) && e.searchId == Some(SearchIdOf(request))
    ensures e.body.resultCount == resultCount && e.body.elapsedMs == elapsedMs
  {
    NewSearchPerformed(eventId, now, SessionOf(request), SearchIdOf(request), request.searchQuery.value,
                       request.page, resultCount, elapsedMs)
  }

  /**
   * One `SearchAccommodationsAsync` call on the shared state: `now` is the clock, `eventId`
   * the identifier the event draws, `elapsedMs` the stopwatch reading of the repository query
   * and `durationMinutes` the configured result lifetime.
   */
  function Search(s: State, request: GetAccommodationRequest, repository: AccommodationRepository,
                  durationMinutes: Int32, now: DateTime, eventId: Guid, elapsedMs: Int64)
    : (r: (State, Result<GetAccommodationResponse, Exception>))
    ensures !AccommodationRequestAccepted(request) ==>
      r == (s, Failure(ValidationException(ValidateAccommodationRequest(request))))
    ensures r.0.events == s.events || (|r.0.events| == |s.events| + 1 && r.0.events[..|s.events|] == s.events)
    ensures r.1.Success? ==>
      && |r.0.events| == |s.events| + 1
      && r.0.events[..|s.events|] == s.events
      && r.0.events[|s.events|].body.SearchPerformed?
      && r.0.events[|s.events|].body.resultCount == |r.1.value.accommodations|
    ensures r.0.calls == s.calls || (exists c :: r.0.calls == s.calls + [Query(c)])
    ensures r.1.Success? ==> r.1.value.meta.page == request.page && r.1.value.meta.resultCount == |r.1.value.accommodations|
  {
    var failures := ValidateAccommodationRequest(request);
    if failures != [] then (s, Failure(ValidationException(failures)))
    else
      var key := KeyOf(request);
      match LookupSearch(s.cache, key, now)
      case Some(cached) =>
        var e := Performed(request, eventId, now, |cached.accommodations|, 0);
        (s.(events := s.events + [e]), Success(Response(request, cached.accommodations, cached.totalResult)))
      case None =>
        match Dispatch(request.searchType, request.searchQuery.value, request.page, request.limit)
        case Failure(x) => (s, Failure(x))
        case Success(call) =>
          var s1 := s.(calls := s.calls + [Query(call)]);
          match RunSearch(repository, call)
          case Failure(x) => (s1, Failure(x))
          case Success(result) =>
            var items := MapAll(result.results);
            var s2 := s1.(events := s1.events + [Performed(request, eventId, now, |items|, elapsedMs)]);
            match Stored(s2.cache, key, SearchEntry(CachedSearchResult(items, result.total)), durationMinutes, now)
            case Failure(x) => (s2, Failure(x))
            case Success(entries) => (s2.(cache := entries), Success(Response(request, items, result.total)))
  }

  // ---------------------------------------------------------------- properties of one call

  /**
   * A hit: no repository call and no cache change; one `SearchPerformed` with elapsed time 0
   * and the cached item count; the cached items and total, with page and identifiers from
   * the current request.
   */
  lemma SearchHit(s: State, request: GetAccommodationRequest, repository: AccommodationRepository,
                  durationMinutes: Int32, now: DateTime, eventId: Guid, elapsedMs: Int64)
    requires AccommodationRequestAccepted(request)
    requires LookupSearch(s.cache, KeyOf(request), now).Some?
    ensures var cached := LookupSearch(s.cache, KeyOf(request), now).value;
      var r := Search(s, request, repository, durationMinutes, now, eventId, elapsedMs);
      && r.0.calls == s.calls && r.0.cache == s.cache
      && r.0.events == s.events + [Performed(request, eventId, now, |cached.accommodations|, 0)]
      && r.1 == Success(Response(request, cached.accommodations, cached.totalResult))
  {
  }

  /** A miss runs exactly the query the mode selects; if that query raises, nothing is queued or cached. */
  lemma SearchMissQueries(s: State, request: GetAccommodationRequest, repository: AccommodationRepository,
                          durationMinutes: Int32, now: DateTime, eventId: Guid, elapsedMs: Int64)
    requires AccommodationRequestAccepted(request)
    requires LookupSearch(s.cache, KeyOf(request), now).None?
    ensures Dispatch(request.searchType, request.searchQuery.value, request.page, request.limit).Success?
    ensures var call := Dispatch(request.searchType, request.searchQuery.value, request.page, request.limit).value;
      var r := Search(s, request, repository, durationMinutes, now, eventId, elapsedMs);
      && r.0.calls == s.calls + [Query(call)]
      && (RunSearch(repository, call).Failure? ==>
            r.0.events == s.events && r.0.cache == s.cache && r.1 == Failure(RunSearch(repository, call).error))
  {
  }

  /**
   * A miss whose query answers: the items are the hits mapped in order, the event and the
   * meta block count them, the meta carries the index total, and the cache then maps the
   * key to the items and total for `durationMinutes`.
   */
  lemma SearchMissAnswers(s: State, request: GetAccommodationRequest, repository: AccommodationRepository,
                          durationMinutes: Int32, now: DateTime, eventId: Guid, elapsedMs: Int64, result: SearchResult)
    requires AccommodationRequestAccepted(request)
    requires LookupSearch(s.cache, KeyOf(request), now).None?
    requires RunSearch(repository, Dispatch(request.searchType, request.searchQuery.value, request.page, request.limit).value)
             == Success(result)
    ensures var r := Search(s, request, repository, durationMinutes, now, eventId, elapsedMs);
      var items := MapAll(result.results);
      && r.0.events == s.events + [Performed(request, eventId, now, |result.results|, elapsedMs)]
      && (durationMinutes > 0 ==>
            && r.1 == Success(Response(request, items, result.total))
            && r.0.cache == s.cache[KeyOf(request) := CacheEntry(SearchEntry(CachedSearchResult(items, result.total)),
                                                               now + durationMinutes * MillisecondsPerMinute)])
      && (durationMinutes <= 0 ==> r.0.cache == s.cache && r.1 == Failure(NonPositiveExpiration))
  {
  }

  /** A missing session or search identifier reads as Guid.Empty in the meta block and in the event. */
  lemma MissingIdentifiersAreEmpty(s: State, request: GetAccommodationRequest, repository: AccommodationRepository,
                                   durationMinutes: Int32, now: DateTime, eventId: Guid, elapsedMs: Int64)
    requires request.sessionId.None? && request.searchId.None?
    requires Search(s, request, repository, durationMinutes, now, eventId, elapsedMs).1.Success?
    ensures var r := Search(s, request, repository, durationMinutes, now, eventId, elapsedMs);
      && r.1.value.meta.sessionId == EmptyGuid && r.1.value.meta.searchId == EmptyGuid
      && r.0.events[|s.events|].sessionId == EmptyGuid && r.0.events[|s.events|].searchId == Some(EmptyGuid)
  {
  }

  // ---------------------------------------------------------------- two calls

  /**
   * After a miss has filled the cache, any accepted request for the same query, page and
   * mode (whatever its limit and identifiers) is answered from the cache until the entry
   * expires: no repository call, and the same items and total.
   */
  lemma RepeatWithinLifetimeHits(s: State, first: GetAccommodationRequest, second: GetAccommodationRequest,
                                 repository: AccommodationRepository, durationMinutes: Int32,
                                 now: DateTime, later: DateTime, eventId: Guid, laterEventId: Guid,
                                 elapsedMs: Int64, laterElapsedMs: Int64)
    requires AccommodationRequestAccepted(first) && AccommodationRequestAccepted(second)
    requires second.searchQuery == first.searchQuery && second.page == first.page && second.searchType == first.searchType
    requires LookupSearch(s.cache, KeyOf(first), now).None?
    requires Search(s, first, repository, durationMinutes, now, eventId, elapsedMs).1.Success?
    requires now <= later < now + durationMinutes * MillisecondsPerMinute
    ensures var r1 := Search(s, first, repository, durationMinutes, now, eventId, elapsedMs);
      var r2 := Search(r1.0, second, repository, durationMinutes, later, laterEventId, laterElapsedMs);
      && r2.0.calls == r1.0.calls
      && r2.0.cache == r1.0.cache
      && r2.1.Success?
      && r2.1.value.accommodations == r1.1.value.accommodations
      && r2.1.value.meta.totalResult == r1.1.value.meta.totalResult
  {
    var call := Dispatch(first.searchType, first.searchQuery.value, first.page, first.limit).value;
    var result := RunSearch(repository, call).value;
    SearchMissAnswers(s, first, repository, durationMinutes, now, eventId, elapsedMs, result);
    var r1 := Search(s, first, repository, durationMinutes, now, eventId, elapsedMs);
    var items := MapAll(result.results);
    assert LookupSearch(r1.0.cache, KeyOf(second), later) == Some(CachedSearchResult(items, result.total));
    SearchHit(r1.0, second, repository, durationMinutes, later, laterEventId, laterElapsedMs);
  }

  // ---------------------------------------------------------------- the service

  /** The search service over the process-wide cache and log queue. */
  class AccommodationSearchService {
    const repository: AccommodationRepository
    const cache: MemoryCache
    const queue: LogQueue
    const resultCacheDurationMinutes: Int32
    /** The repository calls made through this service. */
    ghost var calls: seq<RepositoryCall>

    constructor(repository: AccommodationRepository, cache: MemoryCache, queue: LogQueue, resultCacheDurationMinutes: Int32)
      ensures this.repository == repository && this.cache == cache && this.queue == queue
      ensures this.resultCacheDurationMinutes == resultCacheDurationMinutes && calls == []
    {
      this.repository := repository;
      this.cache := cache;
      this.queue := queue;
      this.resultCacheDurationMinutes := resultCacheDurationMinutes;
      calls := [];
    }

    /** `SearchAccommodationsAsync`: changes the cache, the queue and the call record exactly as `Search` says. */
    method SearchAccommodations(request: GetAccommodationRequest, now: DateTime, eventId: Guid, elapsedMs: Int64)
      returns (r: Result<GetAccommodationResponse, Exception>)
      modifies this, cache, queue
      ensures (State(cache.entries, queue.events, calls), r)
              == Search(State(old(cache.entries), old(queue.events), old(calls)), request, repository,
                        resultCacheDurationMinutes, now, eventId, elapsedMs)
    {
      var failures := ValidateAccommodationRequest(request);
      if failures != [] {
        return Failure(ValidationException(failures));
      }
      var key := KeyOf(request);
      var cached := CacheLookup(key, now);
      if cached.Some? {
        queue.Enqueue(Performed(request, eventId, now, |cached.value.accommodations|, 0));
        return Success(Response(request, cached.value.accommodations, cached.value.totalResult));
      }
      match Dispatch(request.searchType, request.searchQuery.value, request.page, request.limit) {
        case Failure(x) =>
          r := Failure(x);
        case Success(call) =>
          calls := calls + [Query(call)];
          var result := RunSearch(repository, call);
          if result.Failure? {
            return Failure(result.error);
          }
          var items := MapAll(result.value.results);
          queue.Enqueue(Performed(request, eventId, now, |items|, elapsedMs));
          var stored := cache.SetWithConfig(key, SearchEntry(CachedSearchResult(items, result.value.total)),
                                            resultCacheDurationMinutes, now);
          if stored.Failure? {
            return Failure(stored.error);
          }
          r := Success(Response(request, items, result.value.total));
      }
    }

    /** `CacheLookup`: the cached page under the key, if a live one of the right type is there. */
    method CacheLookup(key: string, now: DateTime) returns (r: Option<CachedSearchResult>)
      ensures r.Some? <==> Live(cache.entries, key, now) && cache.entries[key].value.SearchEntry?
      ensures r.Some? ==> cache.entries[key].value == SearchEntry(r.value)
    {
      r := LookupSearch(cache.entries, key, now);
    }
  }
}
