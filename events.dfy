/** The `Event` record the app shows, with its classification helpers
    (Models/Event.swift). */
module Events {
  import opened Basics
  import opened Text
  import opened Seqs

  datatype EventName = EventName(text: string, html: string)
  datatype EventDescription = EventDescription(text: string, html: string)
  datatype EventDate = EventDate(timezone: string, local: string, utc: string)

  datatype Address = Address(
    address1: Option<string>,
    address2: Option<string>,
    city: Option<string>,
    region: Option<string>,
    postalCode: Option<string>,
    country: Option<string>,
    localizedAddressDisplay: Option<string>)

  datatype Venue = Venue(
    id: string,
    name: string,
    address: Address,
    latitude: Option<string>,
    longitude: Option<string>)

  datatype Segment = Segment(name: Option<string>)
  datatype Genre = Genre(name: Option<string>)
  datatype SubGenre = SubGenre(name: Option<string>)

  datatype Classification = Classification(
    segment: Option<Segment>,
    genre: Option<Genre>,
    subGenre: Option<SubGenre>)

  datatype Event = Event(
    id: string,
    name: EventName,
    description: EventDescription,
    start: EventDate,
    end: EventDate,
    venue: Venue,
    classifications: Option<seq<Classification>>,
    isFavorite: bool)

  /** `classifications?.first` */
  function FirstClassification(e: Event): (r: Option<Classification>)
    ensures r.Some? <==> e.classifications.Some? && e.classifications.value != []
    ensures r.Some? ==> r.value == e.classifications.value[0]
  {
    match e.classifications
    case Some(cs) => if cs == [] then None else Some(cs[0])
    case None => None
  }

  /** `classifications?.first?.segment?.name` */
  function SegmentName(e: Event): Option<string> {
    match FirstClassification(e)
    case Some(Classification(Some(Segment(n)), _, _)) => n
    case _ => None
  }

  function GenreName(e: Event): Option<string> {
    match FirstClassification(e)
    case Some(Classification(_, Some(Genre(n)), _)) => n
    case _ => None
  }

  function SubGenreName(e: Event): Option<string> {
    match FirstClassification(e)
    case Some(Classification(_, _, Some(SubGenre(n)))) => n
    case _ => None
  }

  /** `displayAddress` */
  function DisplayAddress(e: Event): (r: string)
    ensures e.venue.address.localizedAddressDisplay.Some? ==> r == e.venue.address.localizedAddressDisplay.value
    ensures e.venue.address.localizedAddressDisplay.None? ==> r == "No address available"
  {
    e.venue.address.localizedAddressDisplay.GetOr("No address available")
  }

  /** `eventType`: the first classification's segment name, "Other" when any
      link of that chain is missing. */
  function EventType(e: Event): (r: string)
    ensures SegmentName(e).Some? ==> r == SegmentName(e).value
    ensures SegmentName(e).None? ==> r == "Other"
  {
    SegmentName(e).GetOr("Other")
  }

  function GenreOf(e: Event): (r: string)
    ensures GenreName(e).Some? ==> r == GenreName(e).value
    ensures GenreName(e).None? ==> r == "Unknown Genre"
  {
    GenreName(e).GetOr("Unknown Genre")
  }

  function SubGenreOf(e: Event): (r: string)
    ensures SubGenreName(e).Some? ==> r == SubGenreName(e).value
    ensures SubGenreName(e).None? ==> r == "Unknown Subgenre"
  {
    SubGenreName(e).GetOr("Unknown Subgenre")
  }

  /** `isEventType(_:)`: the event's type equals `t` ignoring case, where an
      event without a segment name is of type "Other". */
  function IsEventType(e: Event, t: string): (r: bool)
    ensures SegmentName(e).Some? ==> (r <==> Lower(t) == Lower(SegmentName(e).value))
    ensures SegmentName(e).None? ==> (r <==> Lower(t) == "other")
  {
    assert Lower("Other") == "other";
    EqualIgnoringCase(EventType(e), t)
  }

  /** `matchesEventTypes(_:)`: false when there is no segment name at all,
      otherwise some listed type equals that name ignoring case. */
  function MatchesEventTypes(e: Event, types: seq<string>): (r: bool)
    ensures r ==> SegmentName(e).Some?
    ensures SegmentName(e).Some? ==> (r <==> exists i :: 0 <= i < |types| && IsEventType(e, types[i]))
  {
    match SegmentName(e)
    case None => false
    case Some(n) => exists i :: 0 <= i < |types| && Lower(types[i]) == Lower(n)
  }

  /** `filterByEventTypes(_:)` */
  function FilterByEventTypes(events: seq<Event>, types: seq<string>): (r: seq<Event>)
    ensures IsSubsequence(r, events)
    ensures forall e :: e in r <==> e in events && MatchesEventTypes(e, types)
    ensures forall e :: multiset(r)[e] == if MatchesEventTypes(e, types) then multiset(events)[e] else 0
  {
    FilterIsSubsequence(events, e => MatchesEventTypes(e, types));
    Filter(events, e => MatchesEventTypes(e, types))
  }

  function MusicEvents(events: seq<Event>): (r: seq<Event>)
    ensures IsSubsequence(r, events)
    ensures forall e :: e in r <==> e in events && IsEventType(e, "Music")
    ensures forall e :: multiset(r)[e] == if IsEventType(e, "Music") then multiset(events)[e] else 0
  {
    FilterIsSubsequence(events, e => IsEventType(e, "Music"));
    Filter(events, e => IsEventType(e, "Music"))
  }

  function SportsEvents(events: seq<Event>): (r: seq<Event>)
    ensures IsSubsequence(r, events)
    ensures forall e :: e in r <==> e in events && IsEventType(e, "Sports")
    ensures forall e :: multiset(r)[e] == if IsEventType(e, "Sports") then multiset(events)[e] else 0
  {
    FilterIsSubsequence(events, e => IsEventType(e, "Sports"));
    Filter(events, e => IsEventType(e, "Sports"))
  }

  function ArtsEvents(events: seq<Event>): (r: seq<Event>)
    ensures IsSubsequence(r, events)
    ensures forall e :: e in r <==> e in events && IsEventType(e, "Arts & Theatre")
    ensures forall e :: multiset(r)[e] == if IsEventType(e, "Arts & Theatre") then multiset(events)[e] else 0
  {
    FilterIsSubsequence(events, e => IsEventType(e, "Arts & Theatre"));
    Filter(events, e => IsEventType(e, "Arts & Theatre"))
  }

  /** An event without a segment name is of type "Other", so `isEventType`
      accepts "other" in any case for it. */
  lemma UnclassifiedIsOther(e: Event, t: string)
    requires SegmentName(e).None?
    requires Lower(t) == "other"
    ensures IsEventType(e, t)
  {
    assert Lower("Other") == "other";
  }

  /** The two type tests disagree on unclassified events: `isEventType("Other")`
      holds while `matchesEventTypes` rejects them whatever the list says. */
  lemma UnclassifiedNeverMatches(e: Event, types: seq<string>)
    requires SegmentName(e).None?
    ensures !MatchesEventTypes(e, types)
    ensures IsEventType(e, "Other")
  {
  }

  /** Case does not matter on either side of `isEventType`. */
  lemma IsEventTypeIgnoresCase(e: Event, t: string)
    ensures IsEventType(e, t) <==> IsEventType(e, Lower(t))
  {
    LowerIdempotent(t);
  }
}
