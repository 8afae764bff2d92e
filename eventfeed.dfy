/** The paged event-loading controller (ViewModels/EventViewModel.swift).
    The asynchronous `fetchNearbyEvents` is split at its `await`: `BeginFetch`
    runs the guards and flag updates before the request goes out and returns
    the request it would send, and `CompleteFetch` applies the outcome of that
    request, whichever request it belonged to. */
module EventFeed {
  import opened Basics
  import Events
  import Ticketmaster
  import Favorites

  /** A device position; the model only passes it on. */
  datatype Coordinate = Coordinate(latitude: real, longitude: real)

  /** The arguments of one `fetchEvents` call. */
  datatype PageRequest = PageRequest(location: Coordinate, radius: int, page: nat)

  /** Errors a fetch can surface: the service's own, or the transport's. */
  datatype FetchError = Service(kind: Ticketmaster.TicketmasterError) | Transport

  /** Number of trailing items inside which scrolling asks for the next page. */
  const LookBack := 5

  /** `events.firstIndex(where: { $0.id == id })` */
  function FirstIndexOf(events: seq<Events.Event>, id: string): (r: Option<nat>)
    ensures r.Some? ==> r.value < |events| && events[r.value].id == id
    ensures r.Some? ==> forall j :: 0 <= j < r.value ==> events[j].id != id
    ensures r.None? ==> forall j :: 0 <= j < |events| ==> events[j].id != id
  {
    if events == [] then None
    else if events[0].id == id then Some(0)
    else match FirstIndexOf(events[1..], id)
      case Some(k) => Some(k + 1)
      case None => None
  }

  /** The position test of `loadMoreEventsIfNeeded`: the event's index (0
      when it is not in the list) is at least `count - 5`. The threshold is
      plain arithmetic, so a list shorter than five is always in the window. */
  function WithinLookBack(events: seq<Events.Event>, id: string): (r: bool)
    ensures FirstIndexOf(events, id).Some? ==> (r <==> |events| - FirstIndexOf(events, id).value <= LookBack)
    ensures FirstIndexOf(events, id).None? ==> (r <==> |events| <= LookBack)
  {
    FirstIndexOf(events, id).GetOr(0) >= |events| - LookBack
  }

  /** With 20 events, the 17th triggers the next page and the 11th does not. */
  lemma LookBackExamples(events: seq<Events.Event>)
    requires |events| == 20
    requires forall i, j :: 0 <= i < j < |events| ==> events[i].id != events[j].id
    ensures WithinLookBack(events, events[16].id)
    ensures !WithinLookBack(events, events[10].id)
  {
    var a := FirstIndexOf(events, events[16].id);
    var b := FirstIndexOf(events, events[10].id);
    assert a == Some(16);
    assert b == Some(10);
  }

  /** An event that is not in the list counts as index 0. */
  lemma MissingEventIsIndexZero(events: seq<Events.Event>, id: string)
    requires forall e :: e in events ==> e.id != id
    ensures WithinLookBack(events, id) <==> |events| <= LookBack
  {
    assert FirstIndexOf(events, id).None?;
  }

  class EventViewModel {
    var events: seq<Events.Event>
    var isLoading: bool
    var searchRadius: int
    var error: Option<FetchError>
    var hasMoreEvents: bool
    var currentPage: nat
    var isFetchingMore: bool
    const favoritesManager: Favorites.FavoritesManager

    /** At most one of the two fetch kinds is marked in flight. This holds
        whenever fetches are started through `RefreshEvents` and
        `LoadMoreEventsIfNeeded`; a direct `BeginFetch(true)` during a
        refresh breaks it. */
    predicate OneFetchKind()
      reads this
    {
      !(isLoading && isFetchingMore)
    }

    constructor (favoritesManager: Favorites.FavoritesManager)
      ensures this.favoritesManager == favoritesManager
      ensures events == [] && !isLoading && searchRadius == 10 && error == None
      ensures !hasMoreEvents && currentPage == 0 && !isFetchingMore
      ensures OneFetchKind()
    {
      this.favoritesManager := favoritesManager;
      events := [];
      isLoading := false;
      searchRadius := 10;
      error := None;
      hasMoreEvents := false;
      currentPage := 0;
      isFetchingMore := false;
    }

    /** `fetchNearbyEvents(loadMore:)` up to its `await`. `location` is the
        location service's current fix. Returns the request to send, or None
        when the call returns early. */
    method BeginFetch(loadMore: bool, location: Option<Coordinate>) returns (request: Option<PageRequest>)
      modifies this
      ensures location.None? ==> request.None? && unchanged(this)
      ensures location.Some? && loadMore && old(isFetchingMore) ==> request.None? && unchanged(this)
      ensures location.Some? && !loadMore ==>
                currentPage == 0 && isLoading && error == None && !isFetchingMore
                && events == old(events) && hasMoreEvents == old(hasMoreEvents)
                && searchRadius == old(searchRadius)
                && request == Some(PageRequest(location.value, searchRadius, 0))
      ensures location.Some? && loadMore && !old(isFetchingMore) ==>
                isFetchingMore
                && currentPage == old(currentPage) && isLoading == old(isLoading) && error == old(error)
                && events == old(events) && hasMoreEvents == old(hasMoreEvents)
                && searchRadius == old(searchRadius)
                && request == Some(PageRequest(location.value, searchRadius, currentPage))
    {
      if location.None? {
        return None;
      }
      if !loadMore {
        currentPage := 0;
        isLoading := true;
        error := None;
      } else if isFetchingMore {
        return None;
      }
      isFetchingMore := loadMore;
      request := Some(PageRequest(location.value, searchRadius, currentPage));
    }

    /** `fetchNearbyEvents(loadMore:)` after its `await`, given what the
        service returned. The page is overlaid with the favourites as they are
        now; a refresh replaces the list, a load-more appends to it; a failed
        refresh empties the list and a failed load-more keeps it. */
    method CompleteFetch(loadMore: bool, outcome: Result<Ticketmaster.EventPage, FetchError>)
      modifies this
      ensures !isLoading && !isFetchingMore && OneFetchKind()
      ensures searchRadius == old(searchRadius)
      ensures outcome.Success? ==>
                var page := Favorites.WithFavoriteStatus(outcome.value.events, favoritesManager.favoriteEvents);
                && events == (if loadMore then old(events) + page else page)
                && hasMoreEvents == outcome.value.hasMore
                && currentPage == old(currentPage) + 1
                && error == old(error)
      ensures outcome.Failure? ==>
                && events == (if loadMore then old(events) else [])
                && error == Some(outcome.error)
                && hasMoreEvents == old(hasMoreEvents)
                && currentPage == old(currentPage)
    {
      match outcome {
        case Success(result) =>
          var updatedEvents := favoritesManager.UpdateEventsWithFavoriteStatus(result.events);
          if loadMore {
            events := events + updatedEvents;
          } else {
            events := updatedEvents;
          }
          hasMoreEvents := result.hasMore;
          currentPage := currentPage + 1;
        case Failure(e) =>
          error := Some(e);
          if !loadMore {
            events := [];
          }
      }
      isLoading := false;
      isFetchingMore := false;
    }

    /** `refreshEvents()` up to its `await`. */
    method RefreshEvents(location: Option<Coordinate>) returns (request: Option<PageRequest>)
      modifies this
      ensures location.None? ==> request.None? && unchanged(this)
      ensures location.Some? ==>
                currentPage == 0 && isLoading && error == None && !isFetchingMore
                && events == old(events) && hasMoreEvents == old(hasMoreEvents)
                && request == Some(PageRequest(location.value, searchRadius, 0))
      ensures searchRadius == old(searchRadius)
      ensures old(OneFetchKind()) ==> OneFetchKind()
    {
      request := BeginFetch(false, location);
    }

    /** `loadMoreEventsIfNeeded(currentEvent:)` up to its `await`: asks for
        the next page only when the event is within the last five, more pages
        exist and nothing is loading. */
    method LoadMoreEventsIfNeeded(event: Events.Event, location: Option<Coordinate>) returns (request: Option<PageRequest>)
      modifies this
      ensures request.Some? <==>
                old(WithinLookBack(events, event.id) && hasMoreEvents && !isLoading && !isFetchingMore)
                && location.Some?
      ensures request.None? ==> unchanged(this)
      ensures request.Some? ==>
                request.value == PageRequest(location.value, searchRadius, currentPage)
                && isFetchingMore && !isLoading
                && currentPage == old(currentPage) && error == old(error)
                && events == old(events) && hasMoreEvents == old(hasMoreEvents)
                && searchRadius == old(searchRadius)
      ensures old(OneFetchKind()) ==> OneFetchKind()
    {
      var thresholdIndex := |events| - LookBack;
      var index := FirstIndexOf(events, event.id);
      if index.GetOr(0) >= thresholdIndex && hasMoreEvents && !isLoading && !isFetchingMore {
        request := BeginFetch(true, location);
      } else {
        request := None;
      }
    }
  }
}
