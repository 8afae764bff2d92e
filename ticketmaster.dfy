/** Normalisation of a decoded Ticketmaster Discovery API v2 response into the
    app's `Event` records (Services/TicketmasterService.swift). The request,
    the transport and JSON decoding are outside this module: it starts from
    the decoded records. */
module Ticketmaster {
  import opened Basics
  import opened Text
  import Events

  datatype TicketmasterError = InvalidURL | NetworkError | DecodingError

  // Decoded response records, as the API delivers them.

  datatype Page = Page(size: int, totalElements: int, totalPages: int, number: int)

  datatype Segment = Segment(name: Option<string>)
  datatype Genre = Genre(name: Option<string>)
  datatype SubGenre = SubGenre(name: Option<string>)
  datatype Classification = Classification(
    segment: Option<Segment>,
    genre: Option<Genre>,
    subGenre: Option<SubGenre>)

  datatype Start = Start(
    localDate: Option<string>,
    localTime: Option<string>,
    dateTime: Option<string>,
    timezone: Option<string>)
  datatype Dates = Dates(start: Start)

  datatype VenueAddress = VenueAddress(line1: Option<string>)
  datatype City = City(name: Option<string>)
  datatype State = State(name: Option<string>, stateCode: Option<string>)
  datatype Country = Country(name: Option<string>, countryCode: Option<string>)
  datatype Location = Location(latitude: Option<string>, longitude: Option<string>)

  datatype Venue = Venue(
    id: Option<string>,
    name: string,
    address: Option<VenueAddress>,
    city: Option<City>,
    state: Option<State>,
    country: Option<Country>,
    location: Option<Location>,
    postalCode: Option<string>)

  datatype VenueEmbedded = VenueEmbedded(venues: Option<seq<Venue>>)

  datatype TicketmasterEvent = TicketmasterEvent(
    id: string,
    name: string,
    info: Option<string>,
    dates: Dates,
    embedded: Option<VenueEmbedded>,
    classifications: Option<seq<Classification>>)

  datatype EmbeddedEvents = EmbeddedEvents(events: seq<TicketmasterEvent>)

  datatype TicketmasterResponse = TicketmasterResponse(
    embedded: Option<EmbeddedEvents>,
    page: Option<Page>)

  /** What `fetchEvents` returns on success. */
  datatype EventPage = EventPage(events: seq<Events.Event>, hasMore: bool)

  // Optional chains used by the mapping.

  /** `tmEvent.embedded?.venues?.first` */
  function FirstVenue(tm: TicketmasterEvent): Option<Venue> {
    match tm.embedded
    case Some(VenueEmbedded(Some(vs))) => if vs == [] then None else Some(vs[0])
    case _ => None
  }

  /** `tmEvent.classifications?.first` */
  function FirstClassification(tm: TicketmasterEvent): Option<Classification> {
    match tm.classifications
    case Some(cs) => if cs == [] then None else Some(cs[0])
    case None => None
  }

  function VenueName(v: Option<Venue>): Option<string> {
    if v.Some? then Some(v.value.name) else None
  }

  function Line1(v: Option<Venue>): Option<string> {
    if v.Some? && v.value.address.Some? then v.value.address.value.line1 else None
  }

  function CityName(v: Option<Venue>): Option<string> {
    if v.Some? && v.value.city.Some? then v.value.city.value.name else None
  }

  function StateCode(v: Option<Venue>): Option<string> {
    if v.Some? && v.value.state.Some? then v.value.state.value.stateCode else None
  }

  function CountryCode(v: Option<Venue>): Option<string> {
    if v.Some? && v.value.country.Some? then v.value.country.value.countryCode else None
  }

  function Latitude(v: Option<Venue>): Option<string> {
    if v.Some? && v.value.location.Some? then v.value.location.value.latitude else None
  }

  function Longitude(v: Option<Venue>): Option<string> {
    if v.Some? && v.value.location.Some? then v.value.location.value.longitude else None
  }

  function SegmentName(c: Option<Classification>): Option<string> {
    if c.Some? && c.value.segment.Some? then c.value.segment.value.name else None
  }

  function GenreName(c: Option<Classification>): Option<string> {
    if c.Some? && c.value.genre.Some? then c.value.genre.value.name else None
  }

  function SubGenreName(c: Option<Classification>): Option<string> {
    if c.Some? && c.value.subGenre.Some? then c.value.subGenre.value.name else None
  }

  /** The address display line: street, city and state code, absent ones
      dropped, joined with ", ". */
  function AddressDisplay(v: Option<Venue>): (r: string)
    ensures Line1(v).None? && CityName(v).None? && StateCode(v).None? ==> r == ""
  {
    CompactThree(Line1(v), CityName(v), StateCode(v));
    Join(Compact([Line1(v), CityName(v), StateCode(v)]), ", ")
  }

  /** The start date of an event record; the end date is a copy of it. */
  function StartDate(s: Start): (r: Events.EventDate)
    ensures s.timezone.None? ==> r.timezone == "UTC"
    ensures s.timezone.Some? ==> r.timezone == s.timezone.value
    ensures s.localTime.None? ==> r.local == s.localDate.GetOr("") + "T00:00:00"
    ensures s.localTime.Some? ==> r.local == s.localDate.GetOr("") + "T" + s.localTime.value
    ensures s.dateTime.None? ==> r.utc == ""
    ensures s.dateTime.Some? ==> r.utc == s.dateTime.value
  {
    Events.EventDate(
      s.timezone.GetOr("UTC"),
      s.localDate.GetOr("") + "T" + s.localTime.GetOr("00:00:00"),
      s.dateTime.GetOr(""))
  }

  /** The synopsis: the event's `info`, or "Event at " and the venue name. */
  function Synopsis(tm: TicketmasterEvent): (r: string)
    ensures tm.info.Some? ==> r == tm.info.value
    ensures tm.info.None? && FirstVenue(tm).Some? ==> r == "Event at " + FirstVenue(tm).value.name
    ensures tm.info.None? && FirstVenue(tm).None? ==> r == "Event at Unknown Venue"
  {
    tm.info.GetOr("Event at " + VenueName(FirstVenue(tm)).GetOr("Unknown Venue"))
  }

  /** The mapping closure applied to each decoded event. */
  function MapEvent(tm: TicketmasterEvent): (r: Events.Event)
    ensures r.id == tm.id && r.name.text == tm.name && r.name.html == tm.name
    ensures r.description.text == r.description.html
    ensures r.description.text == (if tm.info.Some? then tm.info.value else "Event at " + r.venue.name)
    ensures r.start == StartDate(tm.dates.start) && r.end == r.start
    ensures FirstVenue(tm).None? ==> r.venue.id == "" && r.venue.name == "Unknown Venue"
    ensures FirstVenue(tm).Some? ==>
              r.venue.name == FirstVenue(tm).value.name && r.venue.id == FirstVenue(tm).value.id.GetOr("")
    ensures r.venue.address.address1 == Line1(FirstVenue(tm))
    ensures r.venue.address.address2.None?
    ensures r.venue.address.city == CityName(FirstVenue(tm))
    ensures r.venue.address.region == StateCode(FirstVenue(tm))
    ensures r.venue.address.postalCode == (if FirstVenue(tm).Some? then FirstVenue(tm).value.postalCode else None)
    ensures r.venue.address.country == CountryCode(FirstVenue(tm))
    ensures r.venue.address.localizedAddressDisplay == Some(AddressDisplay(FirstVenue(tm)))
    ensures r.venue.latitude == Latitude(FirstVenue(tm)) && r.venue.longitude == Longitude(FirstVenue(tm))
    ensures r.classifications.Some? && |r.classifications.value| == 1
    ensures !r.isFavorite
  {
    var venue := FirstVenue(tm);
    var classification := FirstClassification(tm);
    var synopsis := Synopsis(tm);
    var start := StartDate(tm.dates.start);
    Events.Event(
      tm.id,
      Events.EventName(tm.name, tm.name),
      Events.EventDescription(synopsis, synopsis),
      start,
      start,
      Events.Venue(
        if venue.Some? then venue.value.id.GetOr("") else "",
        VenueName(venue).GetOr("Unknown Venue"),
        Events.Address(
          Line1(venue),
          None,
          CityName(venue),
          StateCode(venue),
          if venue.Some? then venue.value.postalCode else None,
          CountryCode(venue),
          Some(AddressDisplay(venue))),
        Latitude(venue),
        Longitude(venue)),
      Some([Events.Classification(
        Some(Events.Segment(SegmentName(classification))),
        Some(Events.Genre(GenreName(classification))),
        Some(Events.SubGenre(SubGenreName(classification))))]),
      false)
  }

  /** `(response._embedded?.events ?? []).map { … }` */
  function MapEvents(resp: TicketmasterResponse): (r: seq<Events.Event>)
    ensures resp.embedded.None? ==> r == []
    ensures resp.embedded.Some? ==> |r| == |resp.embedded.value.events|
    ensures resp.embedded.Some? ==> forall i :: 0 <= i < |r| ==> r[i].id == resp.embedded.value.events[i].id
  {
    var tms := if resp.embedded.Some? then resp.embedded.value.events else [];
    seq(|tms|, i requires 0 <= i < |tms| => MapEvent(tms[i]))
  }

  /** `(page?.number ?? 0) < (page?.totalPages ?? 1) - 1` */
  function HasMore(page: Option<Page>): (r: bool)
    ensures page.None? ==> !r
    ensures page.Some? ==> (r <==> page.value.number + 1 < page.value.totalPages)
  {
    (if page.Some? then page.value.number else 0) < (if page.Some? then page.value.totalPages else 1) - 1
  }

  /** Page 0 of 1 and page 2 of 3 are last pages, page 0 of 3 is not, and
      a response without page metadata has no further page. */
  lemma HasMoreExamples(size: int, total: int)
    ensures !HasMore(Some(Page(size, total, 1, 0)))
    ensures HasMore(Some(Page(size, total, 3, 0)))
    ensures !HasMore(Some(Page(size, total, 3, 2)))
    ensures !HasMore(None)
  {
  }

  /** The pure part of `fetchEvents`: decoded response to result page. */
  function Normalize(resp: TicketmasterResponse): (r: EventPage)
    ensures resp.embedded.None? ==> r.events == []
    ensures resp.embedded.Some? ==> |r.events| == |resp.embedded.value.events|
    ensures resp.embedded.Some? ==> forall i :: 0 <= i < |r.events| ==>
              r.events[i] == MapEvent(resp.embedded.value.events[i])
    ensures forall e :: e in r.events ==> !e.isFavorite
    ensures r.hasMore <==> resp.page.Some? && resp.page.value.number + 1 < resp.page.value.totalPages
  {
    EventPage(MapEvents(resp), HasMore(resp.page))
  }

  // What the mapped records mean to the classification helpers of `Event`.

  /** A mapped event's type, genre and subgenre are the names in the first
      source classification, or the getters' fallbacks. */
  lemma MappedEventType(tm: TicketmasterEvent)
    ensures SegmentName(FirstClassification(tm)).Some? ==>
              Events.EventType(MapEvent(tm)) == SegmentName(FirstClassification(tm)).value
    ensures SegmentName(FirstClassification(tm)).None? ==> Events.EventType(MapEvent(tm)) == "Other"
    ensures GenreName(FirstClassification(tm)).Some? ==>
              Events.GenreOf(MapEvent(tm)) == GenreName(FirstClassification(tm)).value
    ensures GenreName(FirstClassification(tm)).None? ==> Events.GenreOf(MapEvent(tm)) == "Unknown Genre"
    ensures SubGenreName(FirstClassification(tm)).Some? ==>
              Events.SubGenreOf(MapEvent(tm)) == SubGenreName(FirstClassification(tm)).value
    ensures SubGenreName(FirstClassification(tm)).None? ==> Events.SubGenreOf(MapEvent(tm)) == "Unknown Subgenre"
  {
  }

  /** Mapped events always carry an address display line, so the
      "No address available" fallback is never taken for them. */
  lemma MappedDisplayAddress(tm: TicketmasterEvent)
    ensures Events.DisplayAddress(MapEvent(tm)) == AddressDisplay(FirstVenue(tm))
  {
  }

  /** The address display line is made of the present parts, in order. */
  lemma AddressDisplayParts(v: Option<Venue>)
    ensures Line1(v).Some? && CityName(v).None? && StateCode(v).None? ==> AddressDisplay(v) == Line1(v).value
    ensures Line1(v).None? && CityName(v).Some? && StateCode(v).None? ==> AddressDisplay(v) == CityName(v).value
    ensures Line1(v).None? && CityName(v).None? && StateCode(v).Some? ==> AddressDisplay(v) == StateCode(v).value
    ensures Line1(v).Some? && CityName(v).None? && StateCode(v).Some? ==>
              AddressDisplay(v) == Line1(v).value + ", " + StateCode(v).value
    ensures Line1(v).Some? && CityName(v).Some? && StateCode(v).None? ==>
              AddressDisplay(v) == Line1(v).value + ", " + CityName(v).value
    ensures Line1(v).None? && CityName(v).Some? && StateCode(v).Some? ==>
              AddressDisplay(v) == CityName(v).value + ", " + StateCode(v).value
    ensures Line1(v).Some? && CityName(v).Some? && StateCode(v).Some? ==>
              AddressDisplay(v) == Line1(v).value + ", " + CityName(v).value + ", " + StateCode(v).value
  {
    CompactThree(Line1(v), CityName(v), StateCode(v));
    if Line1(v).Some? && CityName(v).Some? && StateCode(v).None? {
      assert Compact([Line1(v), CityName(v), StateCode(v)]) == [Line1(v).value, CityName(v).value];
      JoinTwo(Line1(v).value, CityName(v).value, ", ");
    }
    if Line1(v).Some? && CityName(v).None? && StateCode(v).Some? {
      assert Compact([Line1(v), CityName(v), StateCode(v)]) == [Line1(v).value, StateCode(v).value];
      JoinTwo(Line1(v).value, StateCode(v).value, ", ");
    }
    if Line1(v).None? && CityName(v).Some? && StateCode(v).Some? {
      assert Compact([Line1(v), CityName(v), StateCode(v)]) == [CityName(v).value, StateCode(v).value];
      JoinTwo(CityName(v).value, StateCode(v).value, ", ");
    }
    if Line1(v).Some? && CityName(v).Some? && StateCode(v).Some? {
      assert Compact([Line1(v), CityName(v), StateCode(v)]) == [Line1(v).value, CityName(v).value, StateCode(v).value];
      JoinThree(Line1(v).value, CityName(v).value, StateCode(v).value, ", ");
    }
  }
}
