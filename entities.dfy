/**
 * The domain entities and their validating factories. Each factory either raises the
 * exception its guard names or builds the entity from its arguments. The identifier and
 * the clock reading that the factories draw from `Guid.NewGuid` and `DateTime.UtcNow`
 * are parameters here.
 */
module Entities {
  import opened Wrappers
  import opened Primitives
  import opened Coordinates
  import Text

  // ------------------------------------------------------------- SearchLogEntity

  datatype SearchLog = SearchLog(
    logId: Guid,
    sessionId: Guid,
    searchId: Guid,
    timestamp: DateTime,
    query: string,
    page: int,
    resultCount: int,
    elapsedMs: int,
    userAgent: Option<string>,
    ipAddress: Option<string>,
    referer: Option<string>)

  /** What every stored search log satisfies: a trimmed, non-blank query and a page of at least 1. */
  predicate SearchLogValid(log: SearchLog)
  {
    && log.query != []
    && !Text.IsWhiteSpace(log.query[0])
    && !Text.IsWhiteSpace(log.query[|log.query| - 1])
    && log.page >= 1
  }

  /**
   * `SearchLogEntity.Create`: a blank query (null, empty or whitespace only) is refused;
   * otherwise the query is stored trimmed, a page below 1 becomes 1 and the remaining
   * fields are stored as given.
   */
  function CreateSearchLog(
    logId: Guid, now: DateTime,
    sessionId: Guid, searchId: Guid, query: Option<string>, page: int, resultCount: int,
    elapsedMs: int, userAgent: Option<string>, ipAddress: Option<string>, referer: Option<string>
  ): (r: Result<SearchLog, Exception>)
    ensures r.Failure? <==> Text.IsNullOrWhiteSpace(query)
    ensures r.Failure? ==> r.error == ArgumentException("query", "Query cannot be empty")
    ensures r.Success? ==>
      && SearchLogValid(r.value)
      && r.value.query == Text.Trim(query.value)
      && r.value.page == (if page >= 1 then page else 1)
      && r.value.logId == logId && r.value.timestamp == now
      && r.value.sessionId == sessionId && r.value.searchId == searchId
      && r.value.resultCount == resultCount && r.value.elapsedMs == elapsedMs
      && r.value.userAgent == userAgent && r.value.ipAddress == ipAddress
      && r.value.referer == referer
  {
    if Text.IsNullOrWhiteSpace(query) then
      Failure(ArgumentException("query", "Query cannot be empty"))
    else
      var q := Text.Trim(query.value);
      Text.TrimEmptyIff(query.value);
      Text.TrimShape(query.value);
      Success(SearchLog(logId, sessionId, searchId, now, q, if page >= 1 then page else 1,
                        resultCount, elapsedMs, userAgent, ipAddress, referer))
  }

  /** Creating a log again from a stored log's own fields gives back the same log. */
  lemma {:induction false} CreateSearchLogFixpoint(log: SearchLog)
    requires SearchLogValid(log)
    ensures CreateSearchLog(log.logId, log.timestamp, log.sessionId, log.searchId, Some(log.query),
      log.page, log.resultCount, log.elapsedMs, log.userAgent, log.ipAddress, log.referer) == Success(log)
  {
    var q := log.query;
    assert !Text.AllWhiteSpace(q) by { assert !Text.IsWhiteSpace(q[0]); }
    assert Text.TrimStart(q) == q;
    assert Text.TrimEnd(q) == q;
  }

  // --------------------------------------------------------- SuggestionLogEntity

  datatype SuggestionLog = SuggestionLog(
    logId: Guid,
    sessionId: Guid,
    query: string,
    accommodationSuggestionCount: int,
    destinationSuggestionCount: int,
    elapsedMs: int,
    timestamp: DateTime)

  /**
   * `SuggestionLogEntity.Create`: only a null query is refused; an empty or blank query is
   * stored as it is, untrimmed, together with the other fields.
   */
  function CreateSuggestionLog(
    logId: Guid, now: DateTime,
    sessionId: Guid, query: Option<string>, accommodationSuggestionCount: int,
    destinationSuggestionCount: int, elapsedMs: int
  ): (r: Result<SuggestionLog, Exception>)
    ensures r.Failure? <==> query.None?
    ensures r.Failure? ==> r.error == ArgumentNullException("query", "Value cannot be null.")
    ensures r.Success? ==>
      r.value == SuggestionLog(logId, sessionId, query.value, accommodationSuggestionCount,
                               destinationSuggestionCount, elapsedMs, now)
  {
    match query
    case None => Failure(ArgumentNullException("query", "Value cannot be null."))
    case Some(q) =>
      Success(SuggestionLog(logId, sessionId, q, accommodationSuggestionCount,
                            destinationSuggestionCount, elapsedMs, now))
  }

  // -------------------------------------------------------------- ClickLogEntity

  datatype ClickLog = ClickLog(id: Guid, searchLogId: Guid, documentId: string, rank: int, timestamp: DateTime)

  /**
   * `ClickLogEntity.Create`: the empty Guid is refused first, then a null document id; an
   * empty document id and any rank, negative ones included, are accepted.
   */
  function CreateClickLog(id: Guid, now: DateTime, searchLogId: Guid, documentId: Option<string>, rank: int)
    : (r: Result<ClickLog, Exception>)
    ensures r.Success? <==> searchLogId != EmptyGuid && documentId.Some?
    ensures searchLogId == EmptyGuid ==>
      r == Failure(ArgumentNullException("searchLogId", "Search Log Id cannot be empty."))
    ensures searchLogId != EmptyGuid && documentId.None? ==>
      r == Failure(ArgumentNullException("documentId", "Document Id cannot be empty."))
    ensures r.Success? ==> r.value == ClickLog(id, searchLogId, documentId.value, rank, now)
  {
    if searchLogId == EmptyGuid then
      Failure(ArgumentNullException("searchLogId", "Search Log Id cannot be empty."))
    else if documentId.None? then
      Failure(ArgumentNullException("documentId", "Document Id cannot be empty."))
    else
      Success(ClickLog(id, searchLogId, documentId.value, rank, now))
  }

  // ----------------------------------------------------------- DestinationEntity

  datatype Destination = Destination(
    id: Guid,
    name: string,
    country: string,
    administrationLevel1: Option<string>,
    administrationLevel2: Option<string>,
    centerCoordinate: Coordinate,
    accommodationCount: Option<int>)

  /**
   * `DestinationEntity.Create`: a null or empty name is refused (a blank one is not), then
   * a null, empty or blank country; everything else is stored as given.
   */
  function CreateDestination(
    id: Guid, name: Option<string>, country: Option<string>,
    administrationLevel1: Option<string>, administrationLevel2: Option<string>,
    centerCoordinate: Coordinate, accommodationCount: Option<int>
  ): (r: Result<Destination, Exception>)
    ensures r.Success? <==> !Text.IsNullOrEmpty(name) && !Text.IsNullOrWhiteSpace(country)
    ensures Text.IsNullOrEmpty(name) ==>
      r == Failure(ArgumentNullException("name", "Region name cannot be null or empty."))
    ensures !Text.IsNullOrEmpty(name) && Text.IsNullOrWhiteSpace(country) ==>
      r == Failure(ArgumentNullException("country", "Region country cannot be null or empty."))
    ensures r.Success? ==>
      r.value == Destination(id, name.value, country.value, administrationLevel1,
                             administrationLevel2, centerCoordinate, accommodationCount)
  {
    if Text.IsNullOrEmpty(name) then
      Failure(ArgumentNullException("name", "Region name cannot be null or empty."))
    else if Text.IsNullOrWhiteSpace(country) then
      Failure(ArgumentNullException("country", "Region country cannot be null or empty."))
    else
      Success(Destination(id, name.value, country.value, administrationLevel1,
                          administrationLevel2, centerCoordinate, accommodationCount))
  }

  // --------------------------------------------------------- AccommodationEntity

  datatype Accommodation = Accommodation(id: Guid, name: string, address: string, coordinate: Coordinate)

  /** `AccommodationEntity.Create`: the name is checked before the address; both must be non-empty. */
  function CreateAccommodation(id: Guid, name: Option<string>, address: Option<string>, coordinate: Coordinate)
    : (r: Result<Accommodation, Exception>)
    ensures r.Success? <==> !Text.IsNullOrEmpty(name) && !Text.IsNullOrEmpty(address)
    ensures Text.IsNullOrEmpty(name) ==>
      r == Failure(ArgumentNullException("name", "Accommodation name cannot be null or empty"))
    ensures !Text.IsNullOrEmpty(name) && Text.IsNullOrEmpty(address) ==>
      r == Failure(ArgumentNullException("address", "Accommodation address cannot be null or empty"))
    ensures r.Success? ==> r.value == Accommodation(id, name.value, address.value, coordinate)
  {
    if Text.IsNullOrEmpty(name) then
      Failure(ArgumentNullException("name", "Accommodation name cannot be null or empty"))
    else if Text.IsNullOrEmpty(address) then
      Failure(ArgumentNullException("address", "Accommodation address cannot be null or empty"))
    else
      Success(Accommodation(id, name.value, address.value, coordinate))
  }

  // -------------------------------------------------------------- LandmarkEntity

  /** A LandmarkType enum value, as its underlying integer. */
  type LandmarkType = int

  datatype Landmark = Landmark(id: Guid, name: string, landmarkType: LandmarkType, coordinate: Coordinate)

  /** `LandmarkEntity.Create`: only a null or empty name is refused. */
  function CreateLandmark(id: Guid, name: Option<string>, landmarkType: LandmarkType, coordinate: Coordinate)
    : (r: Result<Landmark, Exception>)
    ensures r.Success? <==> !Text.IsNullOrEmpty(name)
    ensures r.Failure? ==> r.error == ArgumentNullException("name", "Landmark name cannot be null or empty")
    ensures r.Success? ==> r.value == Landmark(id, name.value, landmarkType, coordinate)
  {
    if Text.IsNullOrEmpty(name) then
      Failure(ArgumentNullException("name", "Landmark name cannot be null or empty"))
    else
      Success(Landmark(id, name.value, landmarkType, coordinate))
  }

  // ---------------------------------------------------------------- RegionEntity

  datatype Region = Region(id: Guid, name: string, accommodationCount: Option<int>)

  /** `RegionEntity.Create`: only a null or empty name is refused. */
  function CreateRegion(id: Guid, name: Option<string>, accommodationCount: Option<int>)
    : (r: Result<Region, Exception>)
    ensures r.Success? <==> !Text.IsNullOrEmpty(name)
    ensures r.Failure? ==> r.error == ArgumentNullException("name", "Region name cannot be null or empty.")
    ensures r.Success? ==> r.value == Region(id, name.value, accommodationCount)
  {
    if Text.IsNullOrEmpty(name) then
      Failure(ArgumentNullException("name", "Region name cannot be null or empty."))
    else
      Success(Region(id, name.value, accommodationCount))
  }
}
