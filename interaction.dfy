/**
 * The click services: each call builds one click event from the request and queues it,
 * without waiting for it to be stored. Building the event refuses a negative item index,
 * and then nothing is queued.
 */
module Interaction {
  import opened Wrappers
  import opened Primitives
  import opened Events
  import opened Dto

  /** `AccommodationInteractionService`. */
  class AccommodationInteractionService {
    const queue: LogQueue

    constructor(queue: LogQueue)
      ensures this.queue == queue
    {
      this.queue := queue;
    }

    /** `RegisterClickAsync`: queues one `ResultClicked` with the request's session, search and index. */
    method RegisterClickAsync(request: PostClickRequest, eventId: Guid, now: DateTime) returns (r: Result<(), Exception>)
      modifies queue
      ensures r.Success? <==> request.itemIndex >= 0
      ensures r.Failure? ==> r.error == NegativeIndex(request.itemIndex) && queue.events == old(queue.events)
      ensures r.Success? ==>
        && queue.events == old(queue.events) + [NewResultClicked(eventId, now, request.sessionId, request.searchId, request.itemIndex).value]
        && EventType(queue.events[|queue.events| - 1]) == "ResultClicked"
        && queue.events[|queue.events| - 1].sessionId == request.sessionId
        && queue.events[|queue.events| - 1].searchId == Some(request.searchId)
        && queue.events[|queue.events| - 1].body.itemIndex == request.itemIndex
    {
      var evt := NewResultClicked(eventId, now, request.sessionId, request.searchId, request.itemIndex);
      if evt.Failure? {
        return Failure(evt.error);
      }
      queue.Enqueue(evt.value);
      return Success(());
    }
  }

  /** `SuggestionInteractionService`. */
  class SuggestionInteractionService {
    const queue: LogQueue

    constructor(queue: LogQueue)
      ensures this.queue == queue
    {
      this.queue := queue;
    }

    /** `RegisterClickAsync`: queues one `SuggestionClicked` with the request's session, search and index. */
    method RegisterClickAsync(request: PostClickRequest, eventId: Guid, now: DateTime) returns (r: Result<(), Exception>)
      modifies queue
      ensures r.Success? <==> request.itemIndex >= 0
      ensures r.Failure? ==> r.error == NegativeIndex(request.itemIndex) && queue.events == old(queue.events)
      ensures r.Success? ==>
        && queue.events == old(queue.events) + [NewSuggestionClicked(eventId, now, request.sessionId, request.searchId, request.itemIndex).value]
        && EventType(queue.events[|queue.events| - 1]) == "SuggestionClicked"
        && queue.events[|queue.events| - 1].sessionId == request.sessionId
        && queue.events[|queue.events| - 1].searchId == Some(request.searchId)
        && queue.events[|queue.events| - 1].body.itemIndex == request.itemIndex
    {
      var evt := NewSuggestionClicked(eventId, now, request.sessionId, request.searchId, request.itemIndex);
      if evt.Failure? {
        return Failure(evt.error);
      }
      queue.Enqueue(evt.value);
      return Success(());
    }
  }
}
