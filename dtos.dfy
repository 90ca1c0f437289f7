/**
 * The older accommodation request of the `Dtos` namespace, whose query rules depend on the
 * search type: a name search needs a name, a destination search needs a destination.
 */
module Dtos {
  import opened Wrappers
  import opened Primitives
  import opened Text
  import Dto

  /** The search type as this request uses it: the members `Name` and `Destination`, and any other number. */
  datatype LegacySearchType = Name | Destination | Undefined(code: int)

  datatype GetAccommodationRequest = GetAccommodationRequest(
    name: Option<string>,
    destination: Option<string>,
    searchType: LegacySearchType,
    limit: Int32)

  const MaxLimit := 30

  const SearchTypeFailure := ValidationFailure("AccommodationSearchType", "SearchType must be a valid value.")

  /** `NotEmpty()` alone: null, empty and whitespace-only fail once. */
  function NotEmpty(property: string, value: Option<string>): (fs: seq<ValidationFailure>)
    ensures fs == [] <==> !IsNullOrWhiteSpace(value)
    ensures fs != [] ==> fs == [Dto.EmptyFailure(property, property)]
  {
    if IsNullOrWhiteSpace(value) then [Dto.EmptyFailure(property, property)] else []
  }

  /** What the rules accept: the field the type searches by is filled in, the limit is 1..30 and the type is named. */
  predicate Accepted(r: GetAccommodationRequest)
  {
    && (r.searchType == Name ==> !IsNullOrWhiteSpace(r.name))
    && (r.searchType == Destination ==> !IsNullOrWhiteSpace(r.destination))
    && 1 <= r.limit <= MaxLimit
    && !r.searchType.Undefined?
  }

  /**
   * `GetAccommodationRequestValidator`: the name rule only for a name search, the destination
   * rule only for a destination search, then the limit rules and the type rule.
   */
  function Validate(r: GetAccommodationRequest): (fs: seq<ValidationFailure>)
    ensures fs == [] <==> Accepted(r)
    ensures r.searchType != Name ==> Dto.EmptyFailure("Name", "Name") !in fs
    ensures r.searchType != Destination ==> Dto.EmptyFailure("Destination", "Destination") !in fs
    ensures r.searchType.Undefined? ==> fs[|fs| - 1] == SearchTypeFailure
  {
    (if r.searchType == Name then NotEmpty("Name", r.name) else [])
    + (if r.searchType == Destination then NotEmpty("Destination", r.destination) else [])
    + Dto.LimitRules(r.limit, MaxLimit)
    + (if r.searchType.Undefined? then [SearchTypeFailure] else [])
  }
}
