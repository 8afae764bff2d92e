/** Client runs of the event feed and the favourites manager that show what
    callers can derive from the contracts of their methods alone. */
module FeedScenarios {
  import opened Basics
  import Events
  import Ticketmaster
  import Favorites
  import Users
  import opened EventFeed

  /** First page of 20, scrolling to the 17th item asks for page 1, which
      brings 5 more and ends the results. */
  method PaginationScenario(here: Coordinate, page0: seq<Events.Event>, page1: seq<Events.Event>)
    requires |page0| == 20 && |page1| == 5
    requires forall i, j :: 0 <= i < j < |page0| ==> page0[i].id != page0[j].id
  {
    var favorites := new Favorites.FavoritesManager(None);
    var feed := new EventViewModel(favorites);
    var request := feed.RefreshEvents(Some(here));
    assert request == Some(PageRequest(here, 10, 0));
    feed.CompleteFetch(false, Success(Ticketmaster.EventPage(page0, true)));
    assert |feed.events| == 20 && feed.currentPage == 1 && feed.hasMoreEvents;

    var shown := feed.events;
    assert shown == Favorites.WithFavoriteStatus(page0, []);
    assert forall i, j :: 0 <= i < j < |shown| ==> shown[i].id != shown[j].id;
    LookBackExamples(shown);
    var early, late := shown[10], shown[16];
    request := feed.LoadMoreEventsIfNeeded(early, Some(here));
    assert request == None;
    request := feed.LoadMoreEventsIfNeeded(late, Some(here));
    assert request == Some(PageRequest(here, 10, 1));
    var again := feed.LoadMoreEventsIfNeeded(late, Some(here));
    assert again == None;

    feed.CompleteFetch(true, Success(Ticketmaster.EventPage(page1, false)));
    assert |feed.events| == 25 && feed.currentPage == 2;
    assert !feed.hasMoreEvents && !feed.isLoading && !feed.isFetchingMore;
  }

  /** A load-more issued before a refresh and answered after it is appended
      to the refreshed list: responses carry no tag of the search they
      belong to. */
  method LateLoadMoreResponseIsApplied(
    here: Coordinate, there: Coordinate,
    first: seq<Events.Event>, renewed: seq<Events.Event>, late: seq<Events.Event>)
    requires |first| == 3
  {
    var favorites := new Favorites.FavoritesManager(None);
    var feed := new EventViewModel(favorites);
    var request := feed.RefreshEvents(Some(here));
    feed.CompleteFetch(false, Success(Ticketmaster.EventPage(first, true)));
    request := feed.LoadMoreEventsIfNeeded(feed.events[0], Some(here));
    assert request == Some(PageRequest(here, 10, 1));

    request := feed.RefreshEvents(Some(there));
    assert request == Some(PageRequest(there, 10, 0)) && !feed.isFetchingMore;
    feed.CompleteFetch(false, Success(Ticketmaster.EventPage(renewed, true)));
    feed.CompleteFetch(true, Success(Ticketmaster.EventPage(late, false)));
    assert feed.events == Favorites.WithFavoriteStatus(renewed, []) + Favorites.WithFavoriteStatus(late, []);
    assert feed.currentPage == 2 && !feed.hasMoreEvents;
  }

  /** A failed load-more keeps the list; a failed refresh empties it. */
  method FailureScenario(here: Coordinate, first: seq<Events.Event>)
    requires |first| == 2
  {
    var favorites := new Favorites.FavoritesManager(None);
    var feed := new EventViewModel(favorites);
    var request := feed.RefreshEvents(Some(here));
    feed.CompleteFetch(false, Success(Ticketmaster.EventPage(first, true)));
    var shown := feed.events;
    request := feed.LoadMoreEventsIfNeeded(feed.events[1], Some(here));
    feed.CompleteFetch(true, Failure(Transport));
    assert feed.events == shown && feed.error == Some(Transport) && feed.currentPage == 1;
    request := feed.RefreshEvents(Some(here));
    assert feed.error == None && feed.events == shown;
    feed.CompleteFetch(false, Failure(Service(Ticketmaster.NetworkError)));
    assert feed.events == [] && feed.currentPage == 0;
  }

  /** Two toggles that overlap across their `await`s both start from the
      same list, so the later write drops the earlier toggle's change; a
      change of user in between is overwritten the same way. */
  method OverlappingTogglesLoseOne(a: Events.Event, b: Events.Event, other: Users.User)
    requires a.id != b.id
  {
    var favorites := new Favorites.FavoritesManager(None);
    var first := favorites.BeginToggle(a);
    var second := favorites.BeginToggle(b);
    assert first == [a.id] && second == [b.id];
    favorites.CompleteToggle(first, true);
    favorites.CompleteToggle(second, true);
    assert favorites.favoriteEvents == [b.id] && a.id !in favorites.favoriteEvents;

    var third := favorites.BeginToggle(a);
    favorites.ReloadFromUser(Some(other));
    favorites.CompleteToggle(third, true);
    assert favorites.favoriteEvents == [b.id, a.id];
  }
}
