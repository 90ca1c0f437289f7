/**
 * The request and response records of the search API, and the FluentValidation rules for
 * the requests. A validator is a function from the request to its list of failures, in rule
 * order; the request is valid when that list is empty.
 */
module Dto {
  import opened Wrappers
  import opened Primitives
  import opened Text
  import opened Coordinates
  import opened Mapping

  // ---------------------------------------------------------------- search type

  /**
   * AccommodationSearchType: the three named modes, and any other number a client can put
   * in the enum field. `Undefined` carries a number that names no member.
   */
  datatype SearchType = FreeSearch | ByDestination | ByName | Undefined(code: int)

  /** FluentValidation's `IsInEnum`. */
  predicate IsInEnum(t: SearchType)
  {
    !t.Undefined?
  }

  /** `ToString()` of the enum: a member's name, or the number of an undefined value. */
  function SearchTypeText(t: SearchType): (s: string)
    ensures IsInEnum(t) <==> s in ["FreeSearch", "ByDestination", "ByName"]
    ensures ':' !in s
  {
    match t
    case FreeSearch => "FreeSearch"
    case ByDestination => "ByDestination"
    case ByName => "ByName"
    case Undefined(code) =>
      var s := IntToString(code);
      assert s[0] == '-' || IsDigit(s[0]);
      s
  }

  /** Different search types never render alike, so the rendering identifies the type. */
  lemma SearchTypeTextInjective(t: SearchType, u: SearchType)
    requires SearchTypeText(t) == SearchTypeText(u)
    ensures t == u
  {
    if t.Undefined? && u.Undefined? {
      IntToStringInjective(t.code, u.code);
    }
  }

  // ---------------------------------------------------------------- rule messages

  /** The default message of `NotNull` and `NotEmpty`. */
  function EmptyFailure(property: string, display: string): ValidationFailure
  {
    ValidationFailure(property, "'" + display + "' must not be empty.")
  }

  /** `NotNull().NotEmpty()` on a string: both rules run, so a null value fails twice. */
  function NotNullNotEmpty(property: string, display: string, value: Option<string>)
    : (fs: seq<ValidationFailure>)
    ensures fs == [] <==> !IsNullOrWhiteSpace(value)
    ensures |fs| == (if value.None? then 2 else if IsNullOrWhiteSpace(value) then 1 else 0)
    ensures forall i :: 0 <= i < |fs| ==> fs[i] == EmptyFailure(property, display)
  {
    (if value.None? then [EmptyFailure(property, display)] else [])
    + (if IsNullOrWhiteSpace(value) then [EmptyFailure(property, display)] else [])
  }

  const LimitPositive := ValidationFailure("Limit", "'Limit' must be greater than '0'.")

  function LimitAtMost(max: int): ValidationFailure
  {
    ValidationFailure("Limit", "'Limit' must be less than or equal to '" + IntToString(max) + "'.")
  }

  /** `GreaterThan(0).LessThanOrEqualTo(max)` on the limit. */
  function LimitRules(limit: int, max: int): (fs: seq<ValidationFailure>)
    requires max >= 1
    ensures fs == [] <==> 1 <= limit <= max
    ensures limit <= 0 ==> fs == [LimitPositive]
    ensures limit > max ==> fs == [LimitAtMost(max)]
  {
    (if limit <= 0 then [LimitPositive] else [])
    + (if limit > max then [LimitAtMost(max)] else [])
  }

  const SearchTypeFailure := ValidationFailure("AccommodationSearchType", "SearchType must be a valid value.")

  /** `ValidateAndThrowAsync`: any failure raises a ValidationException carrying all of them. */
  function ThrowIfInvalid(failures: seq<ValidationFailure>): (r: Result<(), Exception>)
    ensures r.Success? <==> failures == []
    ensures r.Failure? ==> r.error == ValidationException(failures)
  {
    if failures == [] then Success(()) else Failure(ValidationException(failures))
  }

  // ---------------------------------------------------------------- accommodation search

  /** The accommodation search request, with the fields the search service reads. */
  datatype GetAccommodationRequest = GetAccommodationRequest(
    searchQuery: Option<string>,
    searchType: SearchType,
    limit: Int32,
    page: Int32,
    sessionId: Option<Guid>,
    searchId: Option<Guid>)

  const MaxSearchLimit := 30

  /** What the rules accept: a query with a non-whitespace character, a limit of 1..30 and a named mode. */
  predicate AccommodationRequestAccepted(r: GetAccommodationRequest)
  {
    && !IsNullOrWhiteSpace(r.searchQuery)
    && 1 <= r.limit <= MaxSearchLimit
    && IsInEnum(r.searchType)
  }

  /** `GetAccommodationRequestValidator`: the query rules, then the limit rules, then the mode rule. */
  function ValidateAccommodationRequest(r: GetAccommodationRequest): (fs: seq<ValidationFailure>)
    ensures fs == [] <==> AccommodationRequestAccepted(r)
    ensures IsNullOrWhiteSpace(r.searchQuery) ==> fs[0] == EmptyFailure("SearchQuery", "Search Query")
    ensures r.limit <= 0 ==> LimitPositive in fs
    ensures r.limit > MaxSearchLimit ==> LimitAtMost(MaxSearchLimit) in fs
    ensures !IsInEnum(r.searchType) ==> fs[|fs| - 1] == SearchTypeFailure
  {
    NotNullNotEmpty("SearchQuery", "Search Query", r.searchQuery)
    + LimitRules(r.limit, MaxSearchLimit)
    + (if IsInEnum(r.searchType) then [] else [SearchTypeFailure])
  }

  // ---------------------------------------------------------------- suggestions

  /** The suggestion request, with the fields the suggestion service reads. */
  datatype GetSuggestionRequest = GetSuggestionRequest(query: Option<string>, limit: Int32, sessionId: Option<Guid>)

  const MaxSuggestionLimit := 3

  predicate SuggestionRequestAccepted(r: GetSuggestionRequest)
  {
    !IsNullOrWhiteSpace(r.query) && 1 <= r.limit <= MaxSuggestionLimit
  }

  /** `GetSuggestionRequestValidator`: the query rules, then the limit rules. */
  function ValidateSuggestionRequest(r: GetSuggestionRequest): (fs: seq<ValidationFailure>)
    ensures fs == [] <==> SuggestionRequestAccepted(r)
    ensures IsNullOrWhiteSpace(r.query) ==> fs[0] == EmptyFailure("Query", "Query")
    ensures r.limit <= 0 ==> fs[|fs| - 1] == LimitPositive
    ensures r.limit > MaxSuggestionLimit ==> fs[|fs| - 1] == LimitAtMost(MaxSuggestionLimit)
  {
    NotNullNotEmpty("Query", "Query", r.query) + LimitRules(r.limit, MaxSuggestionLimit)
  }

  /** The accommodation-name suggestion request; a new instance has Query "" and Limit 0. */
  datatype GetAccommodationSuggestionRequest = GetAccommodationSuggestionRequest(query: Option<string>, limit: Int32)

  const DefaultAccommodationSuggestionRequest := GetAccommodationSuggestionRequest(Some(""), 0)

  const MaxAccommodationSuggestionLimit := 4

  predicate AccommodationSuggestionRequestAccepted(r: GetAccommodationSuggestionRequest)
  {
    !IsNullOrWhiteSpace(r.query) && 1 <= r.limit <= MaxAccommodationSuggestionLimit
  }

  /** `GetAccommodationSuggestionRequestValidator`: the query rules, then the limit rules. */
  function ValidateAccommodationSuggestionRequest(r: GetAccommodationSuggestionRequest): (fs: seq<ValidationFailure>)
    ensures fs == [] <==> AccommodationSuggestionRequestAccepted(r)
    ensures IsNullOrWhiteSpace(r.query) ==> fs[0] == EmptyFailure("Query", "Query")
    ensures r.limit <= 0 ==> fs[|fs| - 1] == LimitPositive
    ensures r.limit > MaxAccommodationSuggestionLimit ==> fs[|fs| - 1] == LimitAtMost(MaxAccommodationSuggestionLimit)
  {
    NotNullNotEmpty("Query", "Query", r.query) + LimitRules(r.limit, MaxAccommodationSuggestionLimit)
  }

  /** A request left at its defaults fails on both the query and the limit. */
  lemma DefaultAccommodationSuggestionRequestRejected()
    ensures ValidateAccommodationSuggestionRequest(DefaultAccommodationSuggestionRequest)
            == [EmptyFailure("Query", "Query"), LimitPositive]
  {
    var fs := ValidateAccommodationSuggestionRequest(DefaultAccommodationSuggestionRequest);
    assert NotNullNotEmpty("Query", "Query", Some("")) == [EmptyFailure("Query", "Query")];
    assert LimitRules(0, MaxAccommodationSuggestionLimit) == [LimitPositive];
  }

  // ---------------------------------------------------------------- clicks

  /** The click requests of both click endpoints. */
  datatype PostClickRequest = PostClickRequest(sessionId: Guid, searchId: Guid, itemIndex: Int32)

  // ---------------------------------------------------------------- responses

  /** One accommodation as the search API returns it. */
  datatype AccommodationDto = AccommodationDto(
    id: Guid, name: string, destination: string, accommodationType: AccommodationType, coordinate: Coordinate)

  datatype SearchMeta = SearchMeta(sessionId: Guid, searchId: Guid, page: Int32, resultCount: Int32, totalResult: Int32)

  /** The search response as the search service builds it: the meta block and the items. */
  datatype GetAccommodationResponse = GetAccommodationResponse(meta: SearchMeta, accommodations: List<AccommodationDto>)

  /** `SearchResultDto<AccommodationEntity>`: one page of hits and the index's total. */
  datatype SearchResult = SearchResult(results: List<IndexedAccommodation>, total: Int32)

  /** The suggestion counts are list lengths; the lists come from the repositories and are not bounded here. */
  datatype SuggestionMeta = SuggestionMeta(sessionId: Guid, accommodationSuggestionCount: nat, destinationSuggestionCount: nat)

  /** The suggestion response as the suggestion service builds it. */
  datatype GetSuggestionResponse = GetSuggestionResponse(
    meta: SuggestionMeta, accommodationSuggestions: seq<string>, destinationSuggestions: seq<string>)
}
