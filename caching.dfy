/**
 * The in-memory cache the search services share, with the absolute expiry `SetWithConfig`
 * gives every entry. Entries are typed: a lookup for one record type misses on an entry that
 * holds the other.
 */
module Caching {
  import opened Wrappers
  import opened Primitives
  import opened Dto

  /** The search service's private `CachedSearchResult`: the mapped items and the index total. */
  datatype CachedSearchResult = CachedSearchResult(accommodations: List<AccommodationDto>, totalResult: Int32)

  /** The two record types the services store. */
  datatype CachedValue =
    | SearchEntry(search: CachedSearchResult)
    | SuggestionEntry(suggestions: GetSuggestionResponse)

  datatype CacheEntry = CacheEntry(value: CachedValue, expiresAt: DateTime)

  type Entries = map<string, CacheEntry>

  /** An entry is live until its expiry time; from then on the cache treats it as absent. */
  predicate Live(entries: Entries, key: string, now: DateTime)
  {
    key in entries && now < entries[key].expiresAt
  }

  /** `TryGetValue<CachedSearchResult>`. */
  function LookupSearch(entries: Entries, key: string, now: DateTime): (r: Option<CachedSearchResult>)
    ensures r.Some? <==> Live(entries, key, now) && entries[key].value.SearchEntry?
    ensures r.Some? ==> entries[key].value == SearchEntry(r.value)
  {
    if Live(entries, key, now) && entries[key].value.SearchEntry? then Some(entries[key].value.search) else None
  }

  /** `TryGetValue<GetSuggestionResponse>`. */
  function LookupSuggestions(entries: Entries, key: string, now: DateTime): (r: Option<GetSuggestionResponse>)
    ensures r.Some? <==> Live(entries, key, now) && entries[key].value.SuggestionEntry?
    ensures r.Some? ==> entries[key].value == SuggestionEntry(r.value)
  {
    if Live(entries, key, now) && entries[key].value.SuggestionEntry? then Some(entries[key].value.suggestions) else None
  }

  /** Setting a non-positive relative expiration raises, as `MemoryCacheEntryOptions` does. */
  const NonPositiveExpiration :=
    ArgumentOutOfRangeException("AbsoluteExpirationRelativeToNow", "The relative expiration value must be positive.")

  /**
   * `SetWithConfig`: stores the value under the key, expiring `durationMinutes` from now, and
   * replaces whatever the key held; a duration of zero or less raises and stores nothing.
   */
  function Stored(entries: Entries, key: string, value: CachedValue, durationMinutes: Int32, now: DateTime)
    : (r: Result<Entries, Exception>)
    ensures r.Success? <==> durationMinutes > 0
    ensures r.Failure? ==> r.error == NonPositiveExpiration
    ensures r.Success? ==>
      && r.value.Keys == entries.Keys + {key}
      && r.value[key] == CacheEntry(value, now + durationMinutes * MillisecondsPerMinute)
      && (forall k :: k in entries && k != key ==> r.value[k] == entries[k])
  {
    if durationMinutes <= 0 then Failure(NonPositiveExpiration)
    else Success(entries[key := CacheEntry(value, now + durationMinutes * MillisecondsPerMinute)])
  }

  /** What was just stored is found again until it expires, and then no longer. */
  lemma StoredThenFound(entries: Entries, key: string, value: CachedSearchResult, durationMinutes: Int32,
                        now: DateTime, later: DateTime)
    requires durationMinutes > 0 && now <= later
    ensures Stored(entries, key, SearchEntry(value), durationMinutes, now).Success?
    ensures var e := Stored(entries, key, SearchEntry(value), durationMinutes, now).value;
      LookupSearch(e, key, later) == (if later < now + durationMinutes * MillisecondsPerMinute then Some(value) else None)
      && LookupSuggestions(e, key, later).None?
  {
  }

  /** The process-wide `IMemoryCache`. */
  class MemoryCache {
    var entries: Entries

    constructor()
      ensures entries == map[]
    {
      entries := map[];
    }

    /** `SetWithConfig` on the shared cache: the entries change as `Stored` says, or not at all. */
    method SetWithConfig(key: string, value: CachedValue, durationMinutes: Int32, now: DateTime)
      returns (r: Result<(), Exception>)
      modifies this
      ensures match Stored(old(entries), key, value, durationMinutes, now)
        case Success(e) => r == Success(()) && entries == e
        case Failure(x) => r == Failure(x) && entries == old(entries)
    {
      var s := Stored(entries, key, value, durationMinutes, now);
      if s.Success? {
        entries := s.value;
        r := Success(());
      } else {
        r := Failure(s.error);
      }
    }
  }
}
