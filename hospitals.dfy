/**
 * `getNearbyHospitals`: validates the query, then turns the map service's
 * elements into hospital entries (defaults, address fallback, coordinates
 * from the element or its centre), drops entries without coordinates, adds
 * the distance from the query point and sorts by it. Coordinates and
 * distances are `real`; the distance formula is an input (`dist`), only
 * its order matters here.
 */
module Hospitals {
  import opened Wrappers
  import opened Http
  import opened Text
  import opened Seqs
  import Sorting

  /** The centre the map service gives for an area (a `way`). */
  datatype Center = Center(lat: Option<real>, lon: Option<real>)

  /** An element of the map service's answer. */
  datatype Element = Element(
    id: int,
    tags: map<string, string>,
    lat: Option<real>,
    lon: Option<real>,
    center: Option<Center>)

  /** An entry after the first `map`: coordinates may still be missing. */
  datatype Candidate = Candidate(
    id: int,
    name: string,
    kind: string,
    address: string,
    phone: Option<string>,
    lat: Option<real>,
    lon: Option<real>,
    source: string)

  /** An entry of the reply. */
  datatype Hospital = Hospital(
    id: int,
    name: string,
    kind: string,
    address: string,
    phone: Option<string>,
    lat: real,
    lon: real,
    source: string,
    distance: real)

  /** The query string: `lat` and `lon` as text, either possibly missing. */
  datatype Query = Query(lat: Option<string>, lon: Option<string>)

  /** The tag `key`, when the element has it. */
  function Tag(e: Element, key: string): Option<string> {
    if key in e.tags then Some(e.tags[key]) else None
  }

  /** A coordinate is usable when it is there and not zero (JavaScript truthiness of a number). */
  predicate Usable(x: Option<real>) {
    x.Some? && x.value != 0.0
  }

  /** `own || center?.coord`: the element's own coordinate, else its centre's. */
  function Coord(own: Option<real>, fromCenter: Option<real>): (r: Option<real>)
    ensures Usable(own) ==> r == own
    ensures !Usable(own) ==> r == fromCenter
  {
    if Usable(own) then own else fromCenter
  }

  /** The first `map`: defaults for name, type and address, phone or nothing, coordinates with fallback. */
  function Normalise(e: Element): (c: Candidate)
    ensures c.id == e.id && c.source == "ONLINE"
    ensures c.name != "" && c.kind != "" && c.address != ""
    ensures Present(Tag(e, "name")) ==> c.name == e.tags["name"]
    ensures Present(Tag(e, "healthcare:speciality")) ==> c.kind == e.tags["healthcare:speciality"]
    ensures c.phone.Some? <==> Present(Tag(e, "phone"))
    ensures c.phone.Some? ==> c.phone == Tag(e, "phone")
    ensures c.lat == Coord(e.lat, if e.center.Some? then e.center.value.lat else None)
    ensures c.lon == Coord(e.lon, if e.center.Some? then e.center.value.lon else None)
    ensures Usable(e.lat) ==> c.lat == e.lat
    ensures Usable(e.lon) ==> c.lon == e.lon
  {
    Candidate(
      e.id,
      OrElse(Tag(e, "name"), "Unnamed Hospital"),
      OrElse(Tag(e, "healthcare:speciality"), "General Hospital"),
      if Present(Tag(e, "addr:city")) then Tag(e, "addr:city").value
      else OrElse(Tag(e, "addr:street"), "Address not available"),
      if Present(Tag(e, "phone")) then Tag(e, "phone") else None,
      Coord(e.lat, if e.center.Some? then e.center.value.lat else None),
      Coord(e.lon, if e.center.Some? then e.center.value.lon else None),
      "ONLINE")
  }

  /** The `filter`: both coordinates usable. */
  predicate HasCoords(c: Candidate) {
    Usable(c.lat) && Usable(c.lon)
  }

  /** The second `map`: the entry with its distance from the query point. */
  function Locate(c: Candidate, dist: (real, real) -> real): Hospital
    requires HasCoords(c)
  {
    Hospital(c.id, c.name, c.kind, c.address, c.phone, c.lat.value, c.lon.value, c.source,
             dist(c.lat.value, c.lon.value))
  }

  /** The order of the `sort`: nearest first. */
  predicate Nearer(a: Hospital, b: Hospital) {
    a.distance <= b.distance
  }

  /** The located entries, in the map service's order. */
  function Located(elements: seq<Element>, dist: (real, real) -> real): seq<Hospital> {
    var kept := Filter(Map(elements, Normalise), HasCoords);
    seq(|kept|, i requires 0 <= i < |kept| => Locate(kept[i], dist))
  }

  /** The whole pipeline: normalise, keep entries with coordinates, add distances, sort. */
  function Pipeline(elements: seq<Element>, dist: (real, real) -> real): seq<Hospital> {
    Sorting.InsertionSort(Located(elements, dist), Nearer)
  }

  /**
   * `getNearbyHospitals`. `fetched` is the map service's answer (its
   * elements, or a failure).
   */
  function NearbyHospitals(q: Query, fetched: Ext<seq<Element>>, dist: (real, real) -> real)
    : (r: Reply<Listing<Hospital>>)
    ensures r == Rejected(400, "Latitude and Longitude are required") <==> !Present(q.lat) || !Present(q.lon)
    ensures Present(q.lat) && Present(q.lon) && fetched.Fail? ==> r == Rejected(500, "Failed to fetch external data")
    ensures r.Sent? <==> Present(q.lat) && Present(q.lon) && fetched.Ok?
    ensures r.Sent? ==> r.status == 200 && Counted(r.body)
    ensures r.Sent? ==> r.body.data == Pipeline(fetched.value, dist)
  {
    if !Present(q.lat) || !Present(q.lon) then Rejected(400, "Latitude and Longitude are required")
    else match fetched
      case Fail(_) => Rejected(500, "Failed to fetch external data")
      case Ok(elements) =>
        var hs := Pipeline(elements, dist);
        Sent(200, Listing(|hs|, hs))
  }

  /** The located entries are exactly the elements with coordinates, normalised and located. */
  lemma LocatedExact(elements: seq<Element>, dist: (real, real) -> real)
    ensures forall h :: h in Located(elements, dist) <==>
      exists e :: e in elements && HasCoords(Normalise(e)) && h == Locate(Normalise(e), dist)
  {
    var normalised := Map(elements, Normalise);
    var kept := Filter(normalised, HasCoords);
    var located := Located(elements, dist);
    FilterMembers(normalised, HasCoords);
    MapMembers(elements, Normalise);
    forall h | h in located
      ensures exists e :: e in elements && HasCoords(Normalise(e)) && h == Locate(Normalise(e), dist)
    {
      var i :| 0 <= i < |kept| && located[i] == h;
      assert kept[i] in kept;
    }
    forall e | e in elements && HasCoords(Normalise(e)) ensures Locate(Normalise(e), dist) in located {
      assert Normalise(e) in normalised;
      var i :| 0 <= i < |kept| && kept[i] == Normalise(e);
      assert located[i] == Locate(Normalise(e), dist);
    }
  }

  /**
   * The reply lists the map service's elements that have coordinates, each
   * as often as it occurs, normalised, with its distance, nearest first;
   * every entry is marked `ONLINE` and has a name, a type and an address.
   */
  lemma PipelineCorrect(elements: seq<Element>, dist: (real, real) -> real)
    ensures Sorting.SortedBy(Pipeline(elements, dist), Nearer)
    ensures multiset(Pipeline(elements, dist)) == multiset(Located(elements, dist))
    ensures forall h :: h in Pipeline(elements, dist) <==>
      exists e :: e in elements && HasCoords(Normalise(e)) && h == Locate(Normalise(e), dist)
    ensures forall h :: h in Pipeline(elements, dist) ==>
      h.source == "ONLINE" && h.name != "" && h.kind != "" && h.address != "" && h.lat != 0.0 && h.lon != 0.0
  {
    var located := Located(elements, dist);
    var sorted := Pipeline(elements, dist);
    assert Sorting.TotalPreorder(Nearer);
    Sorting.InsertionSortSorted(located, Nearer);
    LocatedExact(elements, dist);
    forall h ensures h in sorted <==> h in located {
      assert h in multiset(sorted) <==> h in multiset(located);
    }
  }

  /** The address is the city, else the street, else the fixed text. */
  lemma AddressFallback(e: Element)
    ensures Present(Tag(e, "addr:city")) ==> Normalise(e).address == e.tags["addr:city"]
    ensures !Present(Tag(e, "addr:city")) && Present(Tag(e, "addr:street")) ==> Normalise(e).address == e.tags["addr:street"]
    ensures !Present(Tag(e, "addr:city")) && !Present(Tag(e, "addr:street")) ==> Normalise(e).address == "Address not available"
    ensures !Present(Tag(e, "name")) ==> Normalise(e).name == "Unnamed Hospital"
    ensures !Present(Tag(e, "healthcare:speciality")) ==> Normalise(e).kind == "General Hospital"
  {
  }
}
