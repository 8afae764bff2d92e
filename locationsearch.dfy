/** The one-line address shown for a search result
    (`formatAddress` in Views/Location/LocationSearchView.swift). */
module LocationSearch {
  import opened Basics
  import opened Text

  /** The placemark fields the formatter reads. */
  datatype Placemark = Placemark(
    thoroughfare: Option<string>,
    locality: Option<string>,
    administrativeArea: Option<string>,
    postalCode: Option<string>)

  /** An optional part as a list of zero or one parts. */
  function Present(part: Option<string>): (r: seq<string>)
    ensures part.None? ==> r == []
    ensures part.Some? ==> r == [part.value]
  {
    if part.Some? then [part.value] else []
  }

  /** The present parts, in the order street, city, region, postal code. */
  function PresentParts(p: Placemark): (r: seq<string>)
    ensures |r| <= 4
    ensures r == [] <==> p.thoroughfare.None? && p.locality.None? && p.administrativeArea.None? && p.postalCode.None?
    ensures r == Present(p.thoroughfare) + Present(p.locality) + Present(p.administrativeArea) + Present(p.postalCode)
  {
    CompactFour(p.thoroughfare, p.locality, p.administrativeArea, p.postalCode);
    Compact([p.thoroughfare, p.locality, p.administrativeArea, p.postalCode])
  }

  /** A line built up part by part: an absent part leaves it as it is, the
      first present part starts it, and each later one is added after ", ". */
  function Extend(line: Option<string>, part: Option<string>): (r: Option<string>)
    ensures part.None? ==> r == line
    ensures part.Some? && line.None? ==> r == part
    ensures part.Some? && line.Some? ==> r == Some(line.value + ", " + part.value)
  {
    if part.None? then line
    else if line.None? then part
    else Some(line.value + ", " + part.value)
  }

  /** The joined parts, or nothing when there are none. */
  function Joined(parts: seq<string>): Option<string> {
    if parts == [] then None else Some(Join(parts, ", "))
  }

  /** Joining a list and then extending it by one more optional part is
      joining the longer list. */
  lemma JoinedExtend(parts: seq<string>, part: Option<string>)
    ensures Joined(parts + Present(part)) == Extend(Joined(parts), part)
  {
    if part.Some? {
      if parts == [] {
        assert parts + Present(part) == [part.value];
      } else {
        JoinSnoc(parts, part.value, ", ");
      }
    } else {
      assert parts + Present(part) == parts;
    }
  }

  /** The text `formatAddress` produces for a placemark: the present parts
      added one by one to the line in the order street, city, region,
      postal code, or "Location Unknown" when none is present. */
  function AddressLine(p: Placemark): (r: string)
    ensures PresentParts(p) == [] ==> r == "Location Unknown"
    ensures var line := Extend(Extend(Extend(Extend(None, p.thoroughfare), p.locality), p.administrativeArea), p.postalCode);
            r == line.GetOr("Location Unknown")
  {
    var a := Present(p.thoroughfare);
    var b := a + Present(p.locality);
    var c := b + Present(p.administrativeArea);
    JoinedExtend([], p.thoroughfare);
    assert [] + Present(p.thoroughfare) == a;
    JoinedExtend(a, p.locality);
    JoinedExtend(b, p.administrativeArea);
    JoinedExtend(c, p.postalCode);
    if PresentParts(p) == [] then "Location Unknown" else Join(PresentParts(p), ", ")
  }

  /** `formatAddress(_:)`: collects the present parts one by one, then joins
      them with ", ", or answers "Location Unknown" when there are none. */
  method FormatAddress(placemark: Placemark) returns (r: string)
    ensures r == AddressLine(placemark)
  {
    var components: seq<string> := [];
    if placemark.thoroughfare.Some? {
      components := components + [placemark.thoroughfare.value];
    }
    if placemark.locality.Some? {
      components := components + [placemark.locality.value];
    }
    if placemark.administrativeArea.Some? {
      components := components + [placemark.administrativeArea.value];
    }
    if placemark.postalCode.Some? {
      components := components + [placemark.postalCode.value];
    }
    CompactFour(placemark.thoroughfare, placemark.locality, placemark.administrativeArea, placemark.postalCode);
    assert components == PresentParts(placemark);
    r := if components == [] then "Location Unknown" else Join(components, ", ");
  }

  /** Two or more parts are separated by ", ". */
  lemma PartsJoinedInOrder(p: Placemark)
    requires p.thoroughfare.Some? && p.locality.Some? && p.administrativeArea.None? && p.postalCode.Some?
    ensures AddressLine(p) == p.thoroughfare.value + ", " + p.locality.value + ", " + p.postalCode.value
  {
    CompactFour(p.thoroughfare, p.locality, p.administrativeArea, p.postalCode);
    assert PresentParts(p) == [p.thoroughfare.value, p.locality.value, p.postalCode.value];
    JoinThree(p.thoroughfare.value, p.locality.value, p.postalCode.value, ", ");
  }

  /** A single present part is shown unchanged. */
  lemma SinglePartUnchanged(p: Placemark)
    requires |PresentParts(p)| == 1
    ensures AddressLine(p) == PresentParts(p)[0]
  {
  }

  /** The answer is "Location Unknown" exactly when no part is present, or
      when the only present part is itself that text: a joined answer of two
      or more parts contains a comma, which "Location Unknown" does not. */
  lemma UnknownExactly(p: Placemark)
    ensures AddressLine(p) == "Location Unknown" <==> PresentParts(p) == [] || PresentParts(p) == ["Location Unknown"]
  {
    var parts := PresentParts(p);
    if |parts| >= 2 {
      JoinShowsSeparator(parts, ", ");
      assert ',' !in "Location Unknown";
    }
  }
}
