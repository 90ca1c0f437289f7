/**
 * What the search services see of the search index: the accommodation repository as the
 * functions its interface declares, and the destination repository as the request/response
 * logic of `DestinationRepository` around an HTTP round trip given as a function. The state
 * the services share is the cache, the log queue and the sequence of repository calls made.
 */
module Repositories {
  import opened Wrappers
  import opened Primitives
  import opened Text
  import opened Json
  import opened Dto
  import opened Caching
  import opened Events
  import DestinationSuggestions

  /** `IAccommodationRepository`: its three queries, each of which may raise. */
  datatype AccommodationRepository = AccommodationRepository(
    getByField: (string, string, Int32, Int32) -> Result<SearchResult, Exception>,
    getByMultipleField: (seq<string>, string, Int32, Int32) -> Result<SearchResult, Exception>,
    getSuggestions: (string, Int32) -> Result<seq<string>, Exception>)

  /**
   * `DestinationRepository`: the HTTP POST of a payload to the destination index, and the
   * parser of the reply body.
   */
  datatype DestinationRepository = DestinationRepository(
    post: Json -> DestinationSuggestions.Reply,
    parseJson: string -> Option<Json>)

  /**
   * `GetDestinationSuggestionsAsync`: sends the completion payload and reads the reply. A
   * parsed 2xx reply with an options array of textual options yields every non-blank option
   * text once, in the order of the options. A reply without suggestions gives [], and one
   * with a member of the wrong JSON kind on the path raises.
   */
  function GetDestinationSuggestions(repository: DestinationRepository, name: string, limit: Int32)
    : (r: Result<seq<string>, Exception>)
    ensures r.Success? ==> NoDuplicates(r.value)
    ensures r.Success? ==> forall s :: s in r.value ==> !IsNullOrWhiteSpace(Some(s))
    ensures var reply := repository.post(DestinationSuggestions.Payload(name, limit));
      !DestinationSuggestions.IsSuccessStatusCode(reply.statusCode) ==> r.Failure? && r.error.GeneralException?
    ensures var reply := repository.post(DestinationSuggestions.Payload(name, limit));
      DestinationSuggestions.IsSuccessStatusCode(reply.statusCode) && repository.parseJson(reply.content).None? ==>
        r == Failure(JsonReaderError)
    ensures var reply := repository.post(DestinationSuggestions.Payload(name, limit));
      var root := repository.parseJson(reply.content);
      DestinationSuggestions.IsSuccessStatusCode(reply.statusCode) && root.Some? ==>
        && (DestinationSuggestions.NoSuggestions(root.value) ==> r == Success([]))
        && (!DestinationSuggestions.NoSuggestions(root.value) && DestinationSuggestions.OptionItems(root.value).None?
            ==> r == Failure(JsonKindMismatch))
    ensures var reply := repository.post(DestinationSuggestions.Payload(name, limit));
      var root := repository.parseJson(reply.content);
      DestinationSuggestions.IsSuccessStatusCode(reply.statusCode) && root.Some?
      && DestinationSuggestions.OptionItems(root.value).Some? ==>
        var items := DestinationSuggestions.OptionItems(root.value).value;
        && (r.Success? <==> DestinationSuggestions.AllTextual(items))
        && (r.Success? ==>
              && DestinationSuggestions.OptionTexts(items).Success?
              && DestinationSuggestions.DistinctNonBlank(DestinationSuggestions.OptionTexts(items).value, r.value))
  {
    DestinationSuggestions.Suggestions(repository.post(DestinationSuggestions.Payload(name, limit)), repository.parseJson)
  }

  /** The search queries of `IAccommodationRepository`. */
  datatype SearchCall =
    | ByField(field: string, query: string, page: Int32, limit: Int32)
    | ByMultipleField(fields: seq<string>, query: string, page: Int32, limit: Int32)

  /** Every repository call a service makes, as the services' shared call record. */
  datatype RepositoryCall =
    | Query(call: SearchCall)
    | AccommodationSuggestions(name: string, limit: Int32)
    | DestinationSuggestionsCall(name: string, limit: Int32)

  /** Runs one search query against the accommodation repository. */
  function RunSearch(repository: AccommodationRepository, call: SearchCall): Result<SearchResult, Exception>
  {
    match call
    case ByField(f, q, p, l) => repository.getByField(f, q, p, l)
    case ByMultipleField(fs, q, p, l) => repository.getByMultipleField(fs, q, p, l)
  }

  /** What the services change: the shared cache, the log queue, and the record of repository calls. */
  datatype State = State(cache: Entries, events: seq<SearchEvent>, calls: seq<RepositoryCall>)
}
