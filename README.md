# LocalEventFinder event feed, in Dafny

A Dafny model of the logic at the centre of LocalEventFinder, a SwiftUI app that finds
events near the user through the Ticketmaster Discovery API v2. It covers these parts:

- **The paged event-loading controller.** `EventFeed.EventViewModel` is a class over the
  fields `events`, `isLoading`, `searchRadius`, `error`, `hasMoreEvents`, `currentPage` and
  `isFetchingMore`.
  - A refresh resets the page counter and replaces the list.
  - A load-more appends to the list.
  - A failed refresh empties the list, while a failed load-more keeps it.
  - Scrolling asks for the next page only inside a five-item look-back window, and only
    while nothing is loading.
- **The asynchronous fetch.** It is split at its `await` into two steps.
  - `BeginFetch` runs the guards and flag changes and returns the request it would send.
  - `CompleteFetch` takes the service's answer (a page of events plus `hasMore`, or an
    error) and applies it.
  - The caller drives both steps, so any interleaving of requests and answers can be
    expressed.
- **The favourites manager.** `Favorites.FavoritesManager` keeps a list of event ids.
  - A toggle removes every occurrence of an id, or appends it.
  - The toggle is split at its `await`: `BeginToggle` computes the list to save and
    `CompleteToggle` keeps it only when the profile store accepted it.
  - `updateEventsWithFavoriteStatus` stamps `isFavorite` on every event.
- **Response normalisation.** `Ticketmaster` turns decoded API records into `Event`s,
  using these fixed fallbacks:
  - "Unknown Venue"
  - "Event at …"
  - "UTC"
  - "00:00:00"
  - the ", "-joined address line
  - an end date copied from the start date

  It also computes `hasMore` from the page metadata.
- **Event classification helpers** (`Events`).
  - Getters with the fallbacks "Other", "Unknown Genre" and "Unknown Subgenre".
  - Case-insensitive type tests.
  - Type filters over lists.
- **The list screen's filter chain** (`EventList`): favourites only, then event type, then
  search text.
- **Address formatting.** The search screen's address formatter (`LocationSearch`).
- **Sign-up checks.** The sign-up form's validity check, password-mismatch message and
  button state (`SignUp`).

`FeedScenarios` holds four client runs of the controller and the favourites manager. They
are proved from the method contracts alone:

- a 20 + 5 pagination run;
- a late load-more answer that lands on a refreshed list;
- a failed load-more followed by a failed refresh;
- two overlapping favourite toggles, of which only the later survives.

Collaborators enter as parameters:

- the device location is an `Option<Coordinate>` argument;
- the profile store's answer is the `persisted` flag;
- the service's answer is a `Result` argument.

## Notes on the code's behaviour

The model follows the code wherever the code and the app's documented design disagree:

- **No request tagging.** Responses carry no tag of the search they belong to.
  - `CompleteFetch` applies whatever answer it is given.
  - A load-more answer that arrives after a refresh is appended to the refreshed list.
    `FeedScenarios.LateLoadMoreResponseIsApplied` shows this.
- **No de-duplication.** Appending a page does not remove repeated ids.
- **No optimistic update.** A favourite toggle changes nothing until the store accepts
  the new list. Nothing is reverted afterwards.
- **Overlapping toggles lose an update.** `toggleFavorite` computes the new list before
  its `await` and writes it after.
  - Two toggles that overlap both start from the same list, and the later write drops
    the earlier one's change.
  - A reload by the user observer in between is overwritten the same way.
  - `FeedScenarios.OverlappingTogglesLoseOne` shows both.
- **A list, not a set.** The overlay tests membership in the favourites list.
- **Errors.** An error is recorded as a `FetchError` value: either a service error
  (`InvalidURL`, `NetworkError`, `DecodingError`) or a transport error.
- **One fetch kind at a time.** `EventViewModel.OneFetchKind` says that `isLoading` and
  `isFetchingMore` are never both set.
  - `RefreshEvents`, `LoadMoreEventsIfNeeded` and `CompleteFetch` preserve it.
  - In the app every load-more goes through `loadMoreEventsIfNeeded`, which checks
    `!isLoading`.
  - A refresh issued during a load-more clears `isFetchingMore`, as the code does.
- **The look-back threshold can be negative.** It is `events.count - 5`, so with fewer
  than five events every position is inside the window.
- **An event that is not in the list counts as index 0.**
- **Two type tests that disagree.** `isEventType("Other")` holds for an unclassified
  event, but `matchesEventTypes` rejects it whatever the list contains.
- **"Location Unknown" is not always a missing address.** The formatter answers
  "Location Unknown" when no part is present. It gives the same text when the only
  present part is literally "Location Unknown".

## Model

| member | source | states |
|---|---|---|
| `Events.FirstClassification` | LocalEventFinder/LocalEventFinder/Models/Event.swift:85 | `classifications?.first` is present exactly when the list exists and is non-empty, and is then its head |
| `Events.DisplayAddress` | LocalEventFinder/LocalEventFinder/Models/Event.swift:79-81 | the localized address line, or "No address available" when it is absent |
| `Events.EventType` | LocalEventFinder/LocalEventFinder/Models/Event.swift:84-86 | the first classification's segment name, or "Other" when any link of that chain is missing |
| `Events.GenreOf` | LocalEventFinder/LocalEventFinder/Models/Event.swift:88-90 | the first classification's genre name, or "Unknown Genre" |
| `Events.SubGenreOf` | LocalEventFinder/LocalEventFinder/Models/Event.swift:92-94 | the first classification's subgenre name, or "Unknown Subgenre" |
| `Events.IsEventType` | LocalEventFinder/LocalEventFinder/Models/Event.swift:97-99 | for a classified event, true iff `t` lower-cased equals the segment name lower-cased; for an unclassified one, true iff `t` lower-cased is "other" |
| `Events.MatchesEventTypes` | LocalEventFinder/LocalEventFinder/Models/Event.swift:102-107 | false whenever the event has no segment name; otherwise true iff some entry of `types` passes `isEventType` |
| `Events.FilterByEventTypes` | LocalEventFinder/LocalEventFinder/Models/Event.swift:112-116 | an order-preserving subsequence holding exactly the events that match one of the types, each as many times as in the input |
| `Events.MusicEvents` | LocalEventFinder/LocalEventFinder/Models/Event.swift:118-120 | an order-preserving subsequence holding exactly the events of type "Music" (ignoring case), each as many times as in the input |
| `Events.SportsEvents` | LocalEventFinder/LocalEventFinder/Models/Event.swift:122-124 | an order-preserving subsequence holding exactly the events of type "Sports", each as many times as in the input |
| `Events.ArtsEvents` | LocalEventFinder/LocalEventFinder/Models/Event.swift:126-128 | an order-preserving subsequence holding exactly the events of type "Arts & Theatre", each as many times as in the input |
| `Events.UnclassifiedIsOther` | LocalEventFinder/LocalEventFinder/Models/Event.swift:84-99 | an event without a segment name passes `isEventType` for "other" written in any case |
| `Events.UnclassifiedNeverMatches` | LocalEventFinder/LocalEventFinder/Models/Event.swift:97-105 | without a segment name `matchesEventTypes` is false for every list, although `isEventType("Other")` holds |
| `Events.IsEventTypeIgnoresCase` | LocalEventFinder/LocalEventFinder/Models/Event.swift:97-99 | `isEventType(t)` and `isEventType(t.lowercased())` agree |
| `Ticketmaster.AddressDisplay` | LocalEventFinder/LocalEventFinder/Services/TicketmasterService.swift:119-123 | the address line is empty when street, city and state code are all absent |
| `Ticketmaster.AddressDisplayParts` | LocalEventFinder/LocalEventFinder/Services/TicketmasterService.swift:119-123 | in each of the seven cases with some part present, the address line is the present parts among street, city and state code, in that order, separated by ", " |
| `Ticketmaster.StartDate` | LocalEventFinder/LocalEventFinder/Services/TicketmasterService.swift:99-103 | timezone falls back to "UTC"; local is date (or "") + "T" + time (or "00:00:00"); utc is `dateTime`, or "" |
| `Ticketmaster.Synopsis` | LocalEventFinder/LocalEventFinder/Services/TicketmasterService.swift:96 | the event's info, else "Event at " and the first venue's name, else "Event at Unknown Venue" |
| `Ticketmaster.MapEvent` | LocalEventFinder/LocalEventFinder/Services/TicketmasterService.swift:83-142 | same id and name; text and html descriptions equal, being the info or "Event at " + venue name; start date is `StartDate` of the source start and the end date equals it; no venue gives id "" and "Unknown Venue", a first venue gives its name and its id (or ""); street, city, state code, postal code, country code, latitude and longitude come from the first venue; `address_2` is nil; the address line is `AddressDisplay` of the first venue; exactly one classification; not a favourite |
| `Ticketmaster.MapEvents` | LocalEventFinder/LocalEventFinder/Services/TicketmasterService.swift:83-90 | same count, order and ids as the decoded events; empty when `_embedded` is absent |
| `Ticketmaster.HasMore` | LocalEventFinder/LocalEventFinder/Services/TicketmasterService.swift:144 | false without page metadata; otherwise true iff `number + 1 < totalPages` |
| `Ticketmaster.HasMoreExamples` | LocalEventFinder/LocalEventFinder/Services/TicketmasterService.swift:144 | (0,1) and (2,3) give false, (0,3) gives true, a missing page gives false |
| `Ticketmaster.Normalize` | LocalEventFinder/LocalEventFinder/Services/TicketmasterService.swift:83-145 | the result page holds each decoded event mapped in order, no event marked favourite, and `hasMore` from the page metadata |
| `Ticketmaster.MappedEventType` | LocalEventFinder/LocalEventFinder/Services/TicketmasterService.swift:128-140 | a mapped event's type, genre and subgenre are the first source classification's segment, genre and subgenre names, or "Other", "Unknown Genre" and "Unknown Subgenre" when absent |
| `Ticketmaster.MappedDisplayAddress` | LocalEventFinder/LocalEventFinder/Services/TicketmasterService.swift:119-123 | a mapped event's display address is the joined address line, never the "No address available" fallback |
| `Favorites.Without` | LocalEventFinder/LocalEventFinder/Services/FavoritesManager.swift:30 | removes every occurrence of the id and keeps every other id, as many times as it occurred and in its order |
| `Favorites.Toggled` | LocalEventFinder/LocalEventFinder/Services/FavoritesManager.swift:29-31 | a present id is removed entirely (order kept); an absent id is appended at the end; every other id occurs as many times as before |
| `Favorites.ToggledKeepsNoDuplicates` | LocalEventFinder/LocalEventFinder/Services/FavoritesManager.swift:29-31 | a list without duplicates stays without duplicates after a toggle |
| `Favorites.WithoutAbsent` | LocalEventFinder/LocalEventFinder/Services/FavoritesManager.swift:30 | removing an id that is not there leaves the list unchanged |
| `Favorites.ToggleTwiceRestores` | LocalEventFinder/LocalEventFinder/Services/FavoritesManager.swift:28-39 | toggling an absent id twice gives back the original list |
| `Favorites.WithoutKeepsOrder` | LocalEventFinder/LocalEventFinder/Services/FavoritesManager.swift:30 | removal distributes over a tail that lacks the id, so the relative order of the rest is kept |
| `Favorites.WithFavoriteStatus` | LocalEventFinder/LocalEventFinder/Services/FavoritesManager.swift:46-52 | same length, order and ids; every field but `isFavorite` kept; `isFavorite` is membership of the id in the list |
| `Favorites.OverlayIdempotent` | LocalEventFinder/LocalEventFinder/Services/FavoritesManager.swift:46-52 | overlaying twice with the same list equals overlaying once |
| `Favorites.OverlayIgnoresIncomingFlag` | LocalEventFinder/LocalEventFinder/Services/FavoritesManager.swift:46-52 | the overlay's result does not depend on the flag events arrive with |
| `Favorites.OverlayAppend` | LocalEventFinder/LocalEventFinder/Services/FavoritesManager.swift:46-52 | overlaying a concatenation is concatenating the overlays |
| `Favorites.FavoritesManager.constructor` | LocalEventFinder/LocalEventFinder/Services/FavoritesManager.swift:16-18 | starts from the signed-in user's favourites, or an empty list |
| `Favorites.FavoritesManager.ReloadFromUser` | LocalEventFinder/LocalEventFinder/Services/FavoritesManager.swift:20-25 | each change of signed-in user replaces the list with that user's favourites, or empties it |
| `Favorites.FavoritesManager.BeginToggle` | LocalEventFinder/LocalEventFinder/Services/FavoritesManager.swift:28-31 | the list to persist, computed from the list when the toggle starts: a present id removed, an absent id appended, every other id's count kept |
| `Favorites.FavoritesManager.CompleteToggle` | LocalEventFinder/LocalEventFinder/Services/FavoritesManager.swift:33-38 | after the store answers, the requested list replaces the current one if it was persisted, whatever the list is by then; otherwise nothing changes |
| `Favorites.FavoritesManager.IsFavorite` | LocalEventFinder/LocalEventFinder/Services/FavoritesManager.swift:41-43 | true exactly when the id occurs at some position of the list |
| `Favorites.FavoritesManager.UpdateEventsWithFavoriteStatus` | LocalEventFinder/LocalEventFinder/Services/FavoritesManager.swift:46-52 | same length and fields, with `isFavorite` set to `IsFavorite(id)` for each event |
| `EventFeed.FirstIndexOf` | LocalEventFinder/LocalEventFinder/ViewModels/EventViewModel.swift:87 | the first position holding the id, or none when no event has it |
| `EventFeed.WithinLookBack` | LocalEventFinder/LocalEventFinder/ViewModels/EventViewModel.swift:86-87 | an event in the list is inside the window iff at most five positions from its first occurrence to the end; a missing one iff the list has at most five events |
| `EventFeed.LookBackExamples` | LocalEventFinder/LocalEventFinder/ViewModels/EventViewModel.swift:86-87 | with 20 distinct events, the one at index 16 is inside the window and the one at index 10 is not |
| `EventFeed.MissingEventIsIndexZero` | LocalEventFinder/LocalEventFinder/ViewModels/EventViewModel.swift:86-87 | an event not in the list is inside the window exactly when the list has at most five events |
| `EventFeed.EventViewModel.constructor` | LocalEventFinder/LocalEventFinder/ViewModels/EventViewModel.swift:13-27 | empty list, not loading, radius 10, no error, no more pages, page 0 |
| `EventFeed.EventViewModel.BeginFetch` | LocalEventFinder/LocalEventFinder/ViewModels/EventViewModel.swift:29-53 | no location: nothing changes. Refresh: page 0, loading, no error, no load-more flag, and it asks for page 0. Load-more while one is running: nothing changes. Otherwise: marks load-more and asks for the current page. The list is untouched in every case |
| `EventFeed.EventViewModel.CompleteFetch` | LocalEventFinder/LocalEventFinder/ViewModels/EventViewModel.swift:55-78 | on success a refresh replaces the list with the overlaid page and a load-more appends it, `hasMoreEvents` becomes the page's flag and the page count rises by one; on failure the error is set, the page count and flag stay, a refresh empties the list and a load-more keeps it; both loading flags end false |
| `EventFeed.EventViewModel.RefreshEvents` | LocalEventFinder/LocalEventFinder/ViewModels/EventViewModel.swift:81-83 | with a location it resets to page 0, marks loading, clears the error and asks for page 0; it keeps at most one fetch kind marked |
| `EventFeed.EventViewModel.LoadMoreEventsIfNeeded` | LocalEventFinder/LocalEventFinder/ViewModels/EventViewModel.swift:85-91 | asks for the current page exactly when the event is within the last five, more pages exist, nothing is loading and a location is known; otherwise nothing changes |
| `EventList.FilteredEvents` | LocalEventFinder/LocalEventFinder/Views/Events/EventListView.swift:37-55 | an event is shown iff it is in the list and passes every active filter, and then as many times as in the list |
| `EventList.FilteredIsOneFilter` | LocalEventFinder/LocalEventFinder/Views/Events/EventListView.swift:37-55 | the chain of three filters equals one filter by the conjunction of the active filters |
| `EventList.FilteredEventsSpec` | LocalEventFinder/LocalEventFinder/Views/Events/EventListView.swift:37-55 | the result is an order-preserving subsequence; with every filter off the list is unchanged |
| `EventList.FavoritesOnlyShowsFavorites` | LocalEventFinder/LocalEventFinder/Views/Events/EventListView.swift:39-41 | with favourites only on, every shown event's id is a favourite |
| `EventList.TypeFilterShowsType` | LocalEventFinder/LocalEventFinder/Views/Events/EventListView.swift:44 | with a type other than "All", every shown event is of that type ignoring case |
| `EventList.SearchShowsMatches` | LocalEventFinder/LocalEventFinder/Views/Events/EventListView.swift:47-54 | with search text, every shown event's name or venue name contains it ignoring case |
| `LocationSearch.PresentParts` | LocalEventFinder/LocalEventFinder/Views/Location/LocationSearchView.swift:164-180 | the present parts among street, city, region and postal code, in that order; empty exactly when all four are absent |
| `LocationSearch.AddressLine` | LocalEventFinder/LocalEventFinder/Views/Location/LocationSearchView.swift:164-182 | equal to the line built by adding the present parts one at a time (street, city, region, postal code), each after the first preceded by ", ", or "Location Unknown" when none is present |
| `LocationSearch.FormatAddress` | LocalEventFinder/LocalEventFinder/Views/Location/LocationSearchView.swift:163-183 | the step-by-step collection of parts produces `AddressLine` |
| `LocationSearch.PartsJoinedInOrder` | LocalEventFinder/LocalEventFinder/Views/Location/LocationSearchView.swift:166-182 | street, city and postal code without a region are joined in that order with ", " and no empty segment |
| `LocationSearch.SinglePartUnchanged` | LocalEventFinder/LocalEventFinder/Views/Location/LocationSearchView.swift:182 | a single present part is returned unchanged |
| `LocationSearch.UnknownExactly` | LocalEventFinder/LocalEventFinder/Views/Location/LocationSearchView.swift:182 | the answer is "Location Unknown" iff no part is present or the only part is that very text |
| `SignUp.IsValidInput` | LocalEventFinder/LocalEventFinder/Views/Authentication/SignUpView.swift:199-204 | valid input has a non-empty email, equal passwords and a password of at least 6 characters (which makes it non-empty), and these three suffice; a shown mismatch message means invalid input |
| `SignUp.ShowsMismatch` | LocalEventFinder/LocalEventFinder/Views/Authentication/SignUpView.swift:140 | the message is hidden iff either field is empty or the two are equal |
| `SignUp.CreateAccountDisabled` | LocalEventFinder/LocalEventFinder/Views/Authentication/SignUpView.swift:166 | disabled while a request runs and whenever the mismatch message shows; enabled exactly for an email, equal passwords of at least 6 characters and no running request |
| `SignUp.MismatchMeansInvalid` | LocalEventFinder/LocalEventFinder/Views/Authentication/SignUpView.swift:140-166 | whenever "Passwords do not match" shows, the input is invalid and the button is disabled |
| `SignUp.SilentlyInvalid` | LocalEventFinder/LocalEventFinder/Views/Authentication/SignUpView.swift:140-204 | a short password, or an empty confirmation, is invalid without the mismatch message |
| `SignUp.PasswordLengthBoundary` | LocalEventFinder/LocalEventFinder/Views/Authentication/SignUpView.swift:140-204 | with an email and equal fields, a six-character password enables the button and a five-character one disables it without a message |

## Left out

- Request building and transport are not modelled:
  - the URL with its API key;
  - the `URLSession` call;
  - the HTTP status check;
  - JSON decoding (TicketmasterService.swift:32-81, 146-150).

  The model starts from decoded records. The three service errors are only values a fetch
  may fail with.
- The 30-day date window of each request (TicketmasterService.swift:38-42) is left out. It
  depends on the clock and on date libraries.
- Firebase is left out:
  - the profile store behind `toggleFavorite` is reduced to its success or failure;
  - the observer that reloads favourites when the signed-in user changes
    (FavoritesManager.swift:20-25) is reduced to `ReloadFromUser`, which the caller
    invokes with the new user;
  - AuthViewModel.swift is not part of this model.
- CoreLocation and MapKit are left out. The location fix is an input to the fetch steps;
  LocationService.swift and LocationSearchService.swift are not part of this model.
- Floating point is left out.
  - `formatCoordinate` (EventViewModel.swift:94-96) is not modelled.
  - Coordinates are carried as `real` values and never computed with.
- Logging (`print`) is left out.
- `EventViewModel.EventError` (EventViewModel.swift:101-116) is left out. No modelled code
  path raises it.
- `@MainActor` scheduling and `await` are reduced to steps the caller interleaves: the
  two fetch steps and the two toggle steps.
- Case folding is ASCII only.
  - `lowercased()` and `localizedCaseInsensitiveContains` become ASCII lower-casing.
  - Unicode and locale rules are not modelled.
  - `String.count` becomes the length of the character sequence.
- Swift's 64-bit `Int` is not modelled.
  - The page counter and page metadata are unbounded integers.
  - Overflow of `currentPage += 1` and of `totalPages - 1` is not modelled.
- Ticketmaster.MapEvent: its contract does not name the segment, genre and subgenre names
  of the one classification it builds. `MappedEventType` states them through the `Event`
  getters.
- EventFeed.EventViewModel.LoadMoreEventsIfNeeded and RefreshEvents stop at the `await`.
  The rest of the call is `CompleteFetch`, applied by the caller.
