/**
 * `SuggestionSearchService.GetSuggestionsAsync`: validate the request, look it up in the
 * cache, and on a miss ask the accommodation repository and then the destination repository
 * for suggestions, queue one `SuggestionsShown` event and cache the response.
 * `GetSuggestions` gives the whole effect of one call on the shared state; the service class
 * performs it step by step and is proved to do exactly that.
 */
module SuggestionSearch {
  import opened Wrappers
  import opened Primitives
  import opened Text
  import opened Events
  import opened Dto
  import opened Caching
  import opened Repositories
  import AccommodationSearch

  // ---------------------------------------------------------------- cache key

  const KeyPrefix := "suggestion:"

  /** The cache key: query and limit; the session plays no part. */
  function CacheKey(query: string, limit: Int32): string
  {
    KeyPrefix + (query + ":" + IntToString(limit))
  }

  /** Reads a key back into its query and limit; the query may itself contain ':'. */
  function ParseCacheKey(key: string): Option<(string, int)>
  {
    if |key| < |KeyPrefix| || key[..|KeyPrefix|] != KeyPrefix then None
    else
      match SplitAtLast(key[|KeyPrefix|..], ':')
      case None => None
      case Some((query, limitText)) =>
        match ParseInt(limitText)
        case None => None
        case Some(limit) => Some((query, limit))
  }

  lemma CacheKeyRoundTrip(query: string, limit: Int32)
    ensures ParseCacheKey(CacheKey(query, limit)) == Some((query, limit))
  {
    AccommodationSearch.SplitPrefix(KeyPrefix, query + ":" + IntToString(limit));
    SplitAtLastOf(query, IntToString(limit), ':');
    IntToStringRoundTrip(limit);
  }

  /** Two suggestion requests share a cache entry only when query and limit agree. */
  lemma CacheKeyInjective(q1: string, l1: Int32, q2: string, l2: Int32)
    requires CacheKey(q1, l1) == CacheKey(q2, l2)
    ensures q1 == q2 && l1 == l2
  {
    CacheKeyRoundTrip(q1, l1);
    CacheKeyRoundTrip(q2, l2);
  }

  /** The two services share one cache, and their keys never meet. */
  lemma KeySpacesDisjoint(query: string, page: Int32, t: SearchType, suggestionQuery: string, limit: Int32)
    ensures AccommodationSearch.CacheKey(query, page, t) != CacheKey(suggestionQuery, limit)
  {
    assert AccommodationSearch.CacheKey(query, page, t)[1] == 'e';
    assert CacheKey(suggestionQuery, limit)[1] == 'u';
  }

  // ---------------------------------------------------------------- one call

  function SessionOf(request: GetSuggestionRequest): Guid { request.sessionId.GetOr(EmptyGuid) }

  function KeyOf(request: GetSuggestionRequest): string
    requires request.query.Some?
  {
    CacheKey(request.query.value, request.limit)
  }

  /** The `SuggestionsShown` event for a response: its accommodation suggestions, then its destination suggestions. */
  function Shown(sessionId: Guid, eventId: Guid, searchId: Guid, now: DateTime, response: GetSuggestionResponse)
    : (e: SearchEvent)
    ensures e.body.SuggestionsShown? && e.sessionId == sessionId && e.searchId == Some(searchId)
    ensures e.body.suggestions == response.accommodationSuggestions + response.destinationSuggestions
  {
    NewSuggestionsShown(eventId, now, sessionId, searchId, response.accommodationSuggestions + response.destinationSuggestions)
  }

  /** A fresh response: the session, both lists, and their lengths. */
  function Response(sessionId: Guid, accommodations: seq<string>, destinations: seq<string>)
    : (r: GetSuggestionResponse)
    ensures r.meta.sessionId == sessionId
    ensures r.accommodationSuggestions == accommodations && r.meta.accommodationSuggestionCount == |accommodations|
    ensures r.destinationSuggestions == destinations && r.meta.destinationSuggestionCount == |destinations|
  {
    GetSuggestionResponse(SuggestionMeta(sessionId, |accommodations|, |destinations|), accommodations, destinations)
  }

  /**
   * One `GetSuggestionsAsync` call on the shared state: `now` is the clock, `eventId` and
   * `searchId` the identifiers `Guid.NewGuid` draws for the event, and `durationMinutes` the
   * configured suggestion lifetime.
   */
  function GetSuggestions(s: State, request: GetSuggestionRequest,
                          accommodations: AccommodationRepository, destinations: DestinationRepository,
                          durationMinutes: Int32, now: DateTime, eventId: Guid, searchId: Guid)
    : (r: (State, Result<GetSuggestionResponse, Exception>))
    ensures !SuggestionRequestAccepted(request) ==>
      r == (s, Failure(ValidationException(ValidateSuggestionRequest(request))))
    ensures r.0.events == s.events || (|r.0.events| == |s.events| + 1 && r.0.events[..|s.events|] == s.events)
    ensures r.1.Success? ==>
      && |r.0.events| == |s.events| + 1
      && r.0.events[..|s.events|] == s.events
      && r.0.events[|s.events|].body.SuggestionsShown?
      && r.0.events[|s.events|].body.suggestions
         == r.1.value.accommodationSuggestions + r.1.value.destinationSuggestions
    ensures |s.calls| <= |r.0.calls| <= |s.calls| + 2 && r.0.calls[..|s.calls|] == s.calls
  {
    var failures := ValidateSuggestionRequest(request);
    if failures != [] then (s, Failure(ValidationException(failures)))
    else
      var query := request.query.value;
      var key := KeyOf(request);
      match LookupSuggestions(s.cache, key, now)
      case Some(cached) =>
        (s.(events := s.events + [Shown(SessionOf(request), eventId, searchId, now, cached)]), Success(cached))
      case None =>
        var s1 := s.(calls := s.calls + [AccommodationSuggestions(query, request.limit)]);
        match accommodations.getSuggestions(query, request.limit)
        case Failure(x) => (s1, Failure(x))
        case Success(found) =>
          var s2 := s1.(calls := s1.calls + [DestinationSuggestionsCall(query, request.limit)]);
          match GetDestinationSuggestions(destinations, query, request.limit)
          case Failure(x) => (s2, Failure(x))
          case Success(places) =>
            var response := Response(SessionOf(request), found, places);
            var s3 := s2.(events := s2.events + [Shown(SessionOf(request), eventId, searchId, now, response)]);
            match Stored(s3.cache, key, SuggestionEntry(response), durationMinutes, now)
            case Failure(x) => (s3, Failure(x))
            case Success(entries) => (s3.(cache := entries), Success(response))
  }

  // ---------------------------------------------------------------- properties of one call

  /**
   * A hit: neither repository is called and the cache is unchanged; the cached response,
   * meta block included, is returned as it is; one `SuggestionsShown` carries its
   * accommodation suggestions followed by its destination suggestions.
   */
  lemma SuggestionHit(s: State, request: GetSuggestionRequest,
                      accommodations: AccommodationRepository, destinations: DestinationRepository,
                      durationMinutes: Int32, now: DateTime, eventId: Guid, searchId: Guid)
    requires SuggestionRequestAccepted(request)
    requires LookupSuggestions(s.cache, KeyOf(request), now).Some?
    ensures var cached := LookupSuggestions(s.cache, KeyOf(request), now).value;
      var r := GetSuggestions(s, request, accommodations, destinations, durationMinutes, now, eventId, searchId);
      && r.0.calls == s.calls && r.0.cache == s.cache
      && r.0.events == s.events + [Shown(SessionOf(request), eventId, searchId, now, cached)]
      && r.1 == Success(cached)
  {
  }

  /**
   * A miss asks the accommodation repository first and the destination repository second,
   * both with the request's query and limit; if the first raises, the second is not asked,
   * and a raise from either leaves the queue and the cache as they were.
   */
  lemma SuggestionMissQueries(s: State, request: GetSuggestionRequest,
                              accommodations: AccommodationRepository, destinations: DestinationRepository,
                              durationMinutes: Int32, now: DateTime, eventId: Guid, searchId: Guid)
    requires SuggestionRequestAccepted(request)
    requires LookupSuggestions(s.cache, KeyOf(request), now).None?
    ensures var q := request.query.value;
      var r := GetSuggestions(s, request, accommodations, destinations, durationMinutes, now, eventId, searchId);
      && (accommodations.getSuggestions(q, request.limit).Failure? ==>
            r.0 == s.(calls := s.calls + [AccommodationSuggestions(q, request.limit)]))
      && (accommodations.getSuggestions(q, request.limit).Success? ==>
            r.0.calls == s.calls + [AccommodationSuggestions(q, request.limit), DestinationSuggestionsCall(q, request.limit)])
      && (accommodations.getSuggestions(q, request.limit).Failure?
          || GetDestinationSuggestions(destinations, q, request.limit).Failure? ==>
            r.0.events == s.events && r.0.cache == s.cache && r.1.Failure?)
  {
  }

  /**
   * A miss where both repositories answer: the meta counts are the two list lengths, the
   * destination list has no duplicates and no blank entry, and one `SuggestionsShown` carries
   * both lists. The event is queued before the cache write: a positive lifetime stores and
   * returns the response, a non-positive one raises and leaves the cache as it was.
   */
  lemma SuggestionMissAnswers(s: State, request: GetSuggestionRequest,
                              accommodations: AccommodationRepository, destinations: DestinationRepository,
                              durationMinutes: Int32, now: DateTime, eventId: Guid, searchId: Guid,
                              found: seq<string>, places: seq<string>)
    requires SuggestionRequestAccepted(request)
    requires LookupSuggestions(s.cache, KeyOf(request), now).None?
    requires accommodations.getSuggestions(request.query.value, request.limit) == Success(found)
    requires GetDestinationSuggestions(destinations, request.query.value, request.limit) == Success(places)
    ensures var r := GetSuggestions(s, request, accommodations, destinations, durationMinutes, now, eventId, searchId);
      var response := Response(SessionOf(request), found, places);
      && response.meta.accommodationSuggestionCount == |found|
      && response.meta.destinationSuggestionCount == |places|
      && NoDuplicates(response.destinationSuggestions)
      && r.0.events == s.events + [Shown(SessionOf(request), eventId, searchId, now, response)]
      && r.0.events[|s.events|].body.suggestions == found + places
      && (durationMinutes > 0 ==>
            && r.1 == Success(response)
            && r.0.cache == s.cache[KeyOf(request) := CacheEntry(SuggestionEntry(response),
                                                                  now + durationMinutes * MillisecondsPerMinute)])
      && (durationMinutes <= 0 ==> r.0.cache == s.cache && r.1 == Failure(NonPositiveExpiration))
  {
  }

  /**
   * A missing session reads as Guid.Empty in the event; in the meta block only on a miss,
   * because a hit returns the cached meta of whoever filled the entry.
   */
  lemma MissingSessionIsEmpty(s: State, request: GetSuggestionRequest,
                              accommodations: AccommodationRepository, destinations: DestinationRepository,
                              durationMinutes: Int32, now: DateTime, eventId: Guid, searchId: Guid)
    requires request.sessionId.None?
    requires GetSuggestions(s, request, accommodations, destinations, durationMinutes, now, eventId, searchId).1.Success?
    ensures var r := GetSuggestions(s, request, accommodations, destinations, durationMinutes, now, eventId, searchId);
      && r.0.events[|s.events|].sessionId == EmptyGuid
      && (LookupSuggestions(s.cache, KeyOf(request), now).None? ==> r.1.value.meta.sessionId == EmptyGuid)
  {
  }

  // ---------------------------------------------------------------- two calls

  /**
   * After a miss has filled the cache, the same query and limit from any session is answered
   * with the very same response, meta block and session included, until the entry expires,
   * and neither repository is asked again.
   */
  lemma RepeatWithinLifetimeHits(s: State, first: GetSuggestionRequest, second: GetSuggestionRequest,
                                 accommodations: AccommodationRepository, destinations: DestinationRepository,
                                 durationMinutes: Int32, now: DateTime, later: DateTime,
                                 eventId: Guid, searchId: Guid, laterEventId: Guid, laterSearchId: Guid)
    requires SuggestionRequestAccepted(first)
    requires second.query == first.query && second.limit == first.limit
    requires LookupSuggestions(s.cache, KeyOf(first), now).None?
    requires GetSuggestions(s, first, accommodations, destinations, durationMinutes, now, eventId, searchId).1.Success?
    requires now <= later < now + durationMinutes * MillisecondsPerMinute
    ensures var r1 := GetSuggestions(s, first, accommodations, destinations, durationMinutes, now, eventId, searchId);
      var r2 := GetSuggestions(r1.0, second, accommodations, destinations, durationMinutes, later, laterEventId, laterSearchId);
      r2.0.calls == r1.0.calls && r2.0.cache == r1.0.cache && r2.1 == r1.1
  {
    var q := first.query.value;
    var found := accommodations.getSuggestions(q, first.limit).value;
    var places := GetDestinationSuggestions(destinations, q, first.limit).value;
    SuggestionMissAnswers(s, first, accommodations, destinations, durationMinutes, now, eventId, searchId, found, places);
    var r1 := GetSuggestions(s, first, accommodations, destinations, durationMinutes, now, eventId, searchId);
    var response := Response(SessionOf(first), found, places);
    assert LookupSuggestions(r1.0.cache, KeyOf(second), later) == Some(response);
    SuggestionHit(r1.0, second, accommodations, destinations, durationMinutes, later, laterEventId, laterSearchId);
  }

  // ---------------------------------------------------------------- the service

  /** The suggestion service over the process-wide cache and log queue. */
  class SuggestionSearchService {
    const accommodationRepository: AccommodationRepository
    const destinationRepository: DestinationRepository
    const cache: MemoryCache
    const queue: LogQueue
    const suggestionCacheDurationMinutes: Int32
    /** The repository calls made through this service. */
    ghost var calls: seq<RepositoryCall>

    constructor(accommodationRepository: AccommodationRepository, destinationRepository: DestinationRepository,
                cache: MemoryCache, queue: LogQueue, suggestionCacheDurationMinutes: Int32)
      ensures this.accommodationRepository == accommodationRepository
      ensures this.destinationRepository == destinationRepository
      ensures this.cache == cache && this.queue == queue
      ensures this.suggestionCacheDurationMinutes == suggestionCacheDurationMinutes && calls == []
    {
      this.accommodationRepository := accommodationRepository;
      this.destinationRepository := destinationRepository;
      this.cache := cache;
      this.queue := queue;
      this.suggestionCacheDurationMinutes := suggestionCacheDurationMinutes;
      calls := [];
    }

    /** `GetSuggestionsAsync`: changes the cache, the queue and the call record exactly as `GetSuggestions` says. */
    method GetSuggestionsAsync(request: GetSuggestionRequest, now: DateTime, eventId: Guid, searchId: Guid)
      returns (r: Result<GetSuggestionResponse, Exception>)
      modifies this, cache, queue
      ensures (State(cache.entries, queue.events, calls), r)
              == GetSuggestions(State(old(cache.entries), old(queue.events), old(calls)), request,
                                accommodationRepository, destinationRepository,
                                suggestionCacheDurationMinutes, now, eventId, searchId)
    {
      var failures := ValidateSuggestionRequest(request);
      if failures != [] {
        return Failure(ValidationException(failures));
      }
      var sessionId := SessionOf(request);
      var key := KeyOf(request);
      var cached := CacheLookup(key, now);
      if cached.Some? {
        queue.Enqueue(Shown(sessionId, eventId, searchId, now, cached.value));
        return Success(cached.value);
      }
      var query := request.query.value;
      calls := calls + [AccommodationSuggestions(query, request.limit)];
      var found := accommodationRepository.getSuggestions(query, request.limit);
      if found.Failure? {
        return Failure(found.error);
      }
      calls := calls + [DestinationSuggestionsCall(query, request.limit)];
      var places := GetDestinationSuggestions(destinationRepository, query, request.limit);
      if places.Failure? {
        return Failure(places.error);
      }
      var response := Response(sessionId, found.value, places.value);
      queue.Enqueue(Shown(sessionId, eventId, searchId, now, response));
      var stored := cache.SetWithConfig(key, SuggestionEntry(response), suggestionCacheDurationMinutes, now);
      if stored.Failure? {
        return Failure(stored.error);
      }
      return Success(response);
    }

    /** `CacheLookup`: the cached response under the key, if a live one of the right type is there. */
    method CacheLookup(key: string, now: DateTime) returns (r: Option<GetSuggestionResponse>)
      ensures r.Some? <==> Live(cache.entries, key, now) && cache.entries[key].value.SuggestionEntry?
      ensures r.Some? ==> cache.entries[key].value == SuggestionEntry(r.value)
    {
      r := LookupSuggestions(cache.entries, key, now);
    }
  }
}
