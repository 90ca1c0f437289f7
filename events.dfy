/**
 * The search events the service queues for the background logger, and the queue itself.
 * Every event carries an identifier, the session, an optional search identifier and the time
 * it occurred; the identifier and the time come from `Guid.NewGuid` and `DateTime.UtcNow`
 * and are parameters here.
 */
module Events {
  import opened Wrappers
  import opened Primitives
  import Text

  /** The four concrete event kinds and the fields each adds to the base event. */
  datatype EventBody =
    | SearchPerformed(query: string, page: Int32, resultCount: Int32, elapsedMs: Int64)
    | ResultClicked(itemIndex: nat)
    | SuggestionsShown(suggestions: seq<string>)
    | SuggestionClicked(itemIndex: nat)

  datatype SearchEvent = SearchEvent(
    eventId: Guid,
    sessionId: Guid,
    searchId: Option<Guid>,
    occurredAt: DateTime,
    body: EventBody)

  /** `EventType`: the name of the event's concrete class. */
  function EventType(e: SearchEvent): (name: string)
    ensures name in ["SearchPerformed", "ResultClicked", "SuggestionsShown", "SuggestionClicked"]
    ensures name == "SearchPerformed" <==> e.body.SearchPerformed?
    ensures name == "ResultClicked" <==> e.body.ResultClicked?
    ensures name == "SuggestionsShown" <==> e.body.SuggestionsShown?
    ensures name == "SuggestionClicked" <==> e.body.SuggestionClicked?
  {
    match e.body
    case SearchPerformed(_, _, _, _) => "SearchPerformed"
    case ResultClicked(_) => "ResultClicked"
    case SuggestionsShown(_) => "SuggestionsShown"
    case SuggestionClicked(_) => "SuggestionClicked"
  }

  /** `new SearchPerformed(...)`: every field is stored exactly as given. */
  function NewSearchPerformed(
    eventId: Guid, now: DateTime,
    sessionId: Guid, searchId: Guid, query: string, page: Int32, resultCount: Int32, elapsedMs: Int64
  ): (e: SearchEvent)
    ensures EventType(e) == "SearchPerformed"
    ensures e.eventId == eventId && e.occurredAt == now
    ensures e.sessionId == sessionId && e.searchId == Some(searchId)
    ensures e.body.query == query && e.body.page == page
    ensures e.body.resultCount == resultCount && e.body.elapsedMs == elapsedMs
  {
    SearchEvent(eventId, sessionId, Some(searchId), now, SearchPerformed(query, page, resultCount, elapsedMs))
  }

  /** The exception `ArgumentOutOfRangeException.ThrowIfNegative` raises for `itemIndex`. */
  function NegativeIndex(itemIndex: int): Exception
  {
    ArgumentOutOfRangeException("itemIndex",
      "itemIndex ('" + Text.IntToString(itemIndex) + "') must be a non-negative value.")
  }

  /** `new ResultClicked(...)`: a negative index is refused, any other is stored unchanged. */
  function NewResultClicked(eventId: Guid, now: DateTime, sessionId: Guid, searchId: Guid, itemIndex: Int32)
    : (r: Result<SearchEvent, Exception>)
    ensures r.Success? <==> itemIndex >= 0
    ensures r.Failure? ==> r.error == NegativeIndex(itemIndex)
    ensures r.Success? ==>
      && EventType(r.value) == "ResultClicked"
      && r.value.eventId == eventId && r.value.occurredAt == now
      && r.value.sessionId == sessionId && r.value.searchId == Some(searchId)
      && r.value.body.itemIndex == itemIndex
  {
    if itemIndex < 0 then Failure(NegativeIndex(itemIndex))
    else Success(SearchEvent(eventId, sessionId, Some(searchId), now, ResultClicked(itemIndex)))
  }

  /** `new SuggestionsShown(...)`: keeps a copy of the suggestions in their given order. */
  function NewSuggestionsShown(eventId: Guid, now: DateTime, sessionId: Guid, searchId: Guid, suggestions: seq<string>)
    : (e: SearchEvent)
    ensures EventType(e) == "SuggestionsShown"
    ensures e.eventId == eventId && e.occurredAt == now
    ensures e.sessionId == sessionId && e.searchId == Some(searchId)
    ensures e.body.suggestions == suggestions
  {
    SearchEvent(eventId, sessionId, Some(searchId), now, SuggestionsShown(suggestions))
  }

  /** `new SuggestionClicked(...)`: a negative index is refused, any other is stored unchanged. */
  function NewSuggestionClicked(eventId: Guid, now: DateTime, sessionId: Guid, searchId: Guid, itemIndex: Int32)
    : (r: Result<SearchEvent, Exception>)
    ensures r.Success? <==> itemIndex >= 0
    ensures r.Failure? ==> r.error == NegativeIndex(itemIndex)
    ensures r.Success? ==>
      && EventType(r.value) == "SuggestionClicked"
      && r.value.eventId == eventId && r.value.occurredAt == now
      && r.value.sessionId == sessionId && r.value.searchId == Some(searchId)
      && r.value.body.itemIndex == itemIndex
  {
    if itemIndex < 0 then Failure(NegativeIndex(itemIndex))
    else Success(SearchEvent(eventId, sessionId, Some(searchId), now, SuggestionClicked(itemIndex)))
  }

  /**
   * The log queue the services write to. The channel behind it is unbounded, so every
   * write is accepted and the queue is the sequence of events written so far.
   */
  class LogQueue {
    var events: seq<SearchEvent>

    constructor()
      ensures events == []
    {
      events := [];
    }

    /** `Enqueue`: appends one event. */
    method Enqueue(e: SearchEvent)
      modifies this
      ensures events == old(events) + [e]
    {
      events := events + [e];
    }
  }
}
