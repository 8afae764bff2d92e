/** The list screen's `filteredEvents` (Views/Events/EventListView.swift):
    favourites only, then event type, then search text. */
module EventList {
  import opened Text
  import opened Seqs
  import opened Events

  /** The search test: the event's name or its venue's name contains the
      text, ignoring case. */
  predicate MatchesSearch(e: Event, searchText: string) {
    ContainsIgnoringCase(e.name.text, searchText) || ContainsIgnoringCase(e.venue.name, searchText)
  }

  /** The three screen filters, each one passing everything when it is off. */
  predicate FavoriteFilter(e: Event, favorites: seq<string>, showingFavoritesOnly: bool) {
    !showingFavoritesOnly || e.id in favorites
  }

  predicate TypeFilter(e: Event, selectedEventType: string) {
    selectedEventType == "All" || IsEventType(e, selectedEventType)
  }

  predicate SearchFilter(e: Event, searchText: string) {
    searchText == [] || MatchesSearch(e, searchText)
  }

  /** An event is shown exactly when it passes every active filter. */
  predicate PassesFilters(e: Event, favorites: seq<string>, showingFavoritesOnly: bool,
                          selectedEventType: string, searchText: string) {
    FavoriteFilter(e, favorites, showingFavoritesOnly)
    && TypeFilter(e, selectedEventType)
    && SearchFilter(e, searchText)
  }

  /** `filteredEvents`, with `favorites` standing for the favourites
      manager's current list. */
  function FilteredEvents(events: seq<Event>, favorites: seq<string>, showingFavoritesOnly: bool,
                          selectedEventType: string, searchText: string): (r: seq<Event>)
    ensures forall e :: e in r <==> e in events && PassesFilters(e, favorites, showingFavoritesOnly, selectedEventType, searchText)
    ensures forall e :: multiset(r)[e] ==
              if PassesFilters(e, favorites, showingFavoritesOnly, selectedEventType, searchText) then multiset(events)[e] else 0
  {
    var favorited := if showingFavoritesOnly then Filter(events, (e: Event) => e.id in favorites) else events;
    var typeFiltered := if selectedEventType == "All" then favorited
                        else Filter(favorited, e => IsEventType(e, selectedEventType));
    if searchText == [] then typeFiltered
    else Filter(typeFiltered, e => MatchesSearch(e, searchText))
  }

  /** The chain of three filters is the single filter by `PassesFilters`. */
  lemma FilteredIsOneFilter(events: seq<Event>, favorites: seq<string>, showingFavoritesOnly: bool,
                            selectedEventType: string, searchText: string)
    ensures FilteredEvents(events, favorites, showingFavoritesOnly, selectedEventType, searchText)
            == Filter(events, e => PassesFilters(e, favorites, showingFavoritesOnly, selectedEventType, searchText))
  {
    var pf := (e: Event) => FavoriteFilter(e, favorites, showingFavoritesOnly);
    var pt := (e: Event) => TypeFilter(e, selectedEventType);
    var ps := (e: Event) => SearchFilter(e, searchText);
    var pft := (e: Event) => pf(e) && pt(e);
    var all := (e: Event) => PassesFilters(e, favorites, showingFavoritesOnly, selectedEventType, searchText);

    var s1 := Filter(events, pf);
    if showingFavoritesOnly {
      FilterAgree(events, pf, (e: Event) => e.id in favorites);
    } else {
      FilterAllKept(events, pf);
    }
    var s2 := Filter(s1, pt);
    if selectedEventType != "All" {
      FilterAgree(s1, pt, e => IsEventType(e, selectedEventType));
    } else {
      FilterAllKept(s1, pt);
    }
    var s3 := Filter(s2, ps);
    if searchText != [] {
      FilterAgree(s2, ps, e => MatchesSearch(e, searchText));
    } else {
      FilterAllKept(s2, ps);
    }
    assert FilteredEvents(events, favorites, showingFavoritesOnly, selectedEventType, searchText) == s3;
    FilterFilter(events, pf, pt, pft);
    FilterFilter(events, pft, ps, all);
  }

  /** Filtering never reorders events, and with every filter off the list
      is shown as it is. */
  lemma FilteredEventsSpec(events: seq<Event>, favorites: seq<string>, showingFavoritesOnly: bool,
                           selectedEventType: string, searchText: string)
    ensures IsSubsequence(FilteredEvents(events, favorites, showingFavoritesOnly, selectedEventType, searchText), events)
    ensures !showingFavoritesOnly && selectedEventType == "All" && searchText == [] ==>
              FilteredEvents(events, favorites, showingFavoritesOnly, selectedEventType, searchText) == events
  {
    FilteredIsOneFilter(events, favorites, showingFavoritesOnly, selectedEventType, searchText);
    FilterIsSubsequence(events, e => PassesFilters(e, favorites, showingFavoritesOnly, selectedEventType, searchText));
  }

  /** With favourites only on, every shown event is a favourite. */
  lemma FavoritesOnlyShowsFavorites(events: seq<Event>, favorites: seq<string>,
                                    selectedEventType: string, searchText: string)
    ensures forall e :: e in FilteredEvents(events, favorites, true, selectedEventType, searchText) ==>
              e.id in favorites
  {
    FilteredEventsSpec(events, favorites, true, selectedEventType, searchText);
  }

  /** With a type chosen, every shown event is of that type, ignoring case. */
  lemma TypeFilterShowsType(events: seq<Event>, favorites: seq<string>, showingFavoritesOnly: bool,
                            selectedEventType: string, searchText: string)
    requires selectedEventType != "All"
    ensures forall e :: e in FilteredEvents(events, favorites, showingFavoritesOnly, selectedEventType, searchText) ==>
              IsEventType(e, selectedEventType)
  {
    FilteredEventsSpec(events, favorites, showingFavoritesOnly, selectedEventType, searchText);
  }

  /** With search text, every shown event's name or venue name contains it,
      ignoring case. */
  lemma SearchShowsMatches(events: seq<Event>, favorites: seq<string>, showingFavoritesOnly: bool,
                           selectedEventType: string, searchText: string)
    requires searchText != []
    ensures forall e :: e in FilteredEvents(events, favorites, showingFavoritesOnly, selectedEventType, searchText) ==>
              ContainsIgnoringCase(e.name.text, searchText) || ContainsIgnoringCase(e.venue.name, searchText)
  {
    FilteredEventsSpec(events, favorites, showingFavoritesOnly, selectedEventType, searchText);
  }
}
