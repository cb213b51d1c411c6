/**
 * The hospital finder page: the list it shows (entries without a real
 * name hidden, twenty per page), the page the user is on, the link to a
 * navigation app, the built-in list used when the backend cannot help,
 * and what a location search and a GPS fix do to the page's state.
 * Geolocation, the geocoder and the backend are inputs; distances come
 * from a distance function given as a parameter.
 */
module HospitalFinder {
  import opened Wrappers
  import opened Http
  import opened Text
  import opened Seqs
  import Sorting
  import opened Hospitals

  /** The hospitals known without a network, with distance 0 until located. */
  const OfflineHospitals: seq<Hospital> := [
    Hospital(101, "Bandarban Sadar Hospital", "District Hospital", "Bandarban Sadar",
             None, 22.1953275, 92.2183773, "OFFLINE", 0.0),
    Hospital(102, "Rangamati General Hospital", "General Hospital", "Hospital Road, Rangamati",
             None, 22.6533013, 92.1714545, "OFFLINE", 0.0),
    Hospital(103, "Khagrachari District Hospital", "District Hospital", "Khagrachari Sadar",
             None, 23.1118675, 91.9708914, "OFFLINE", 0.0),
    Hospital(104, "Chittagong Medical College", "Medical College", "KB Fazlul Kader Rd, Chattogram",
             None, 22.3585785, 91.8214373, "OFFLINE", 0.0)
  ]

  /** Entries per page (`ITEMS_PER_PAGE`); the page arithmetic below writes it out as 20. */
  const ItemsPerPage := 20

  /** Entries the list shows: every one except those named `Unnamed Hospital`. */
  predicate Named(h: Hospital) {
    h.name != "Unnamed Hospital"
  }

  function Visible(hs: seq<Hospital>): seq<Hospital> {
    Filter(hs, Named)
  }

  /** The list drops exactly the unnamed entries and keeps the rest in their order. */
  lemma VisibleExact(hs: seq<Hospital>)
    ensures forall h :: h in Visible(hs) <==> h in hs && h.name != "Unnamed Hospital"
    ensures IsSubsequence(Visible(hs), hs)
    ensures (forall i :: 0 <= i < |hs| ==> Named(hs[i])) ==> Visible(hs) == hs
  {
    FilterMembers(hs, Named);
    FilterIsSubsequence(hs, Named);
    if forall i :: 0 <= i < |hs| ==> Named(hs[i]) {
      FilterAllPass(hs, Named);
    }
  }

  /** `Math.ceil(n / 20)`: the fewest pages of twenty that hold `n` entries. */
  function TotalPages(n: nat): (r: nat)
    ensures n <= r * 20 < n + 20
    ensures r == 0 <==> n == 0
  {
    (n + 19) / 20
  }

  function Min(a: int, b: int): int {
    if a <= b then a else b
  }

  /** How `slice` reads an index: negative counts from the end, then clamped to the length. */
  function SliceIndex(i: int, len: nat): (r: nat)
    ensures r <= len
    ensures 0 <= i ==> r == Min(i, len)
    ensures i < 0 ==> r == if len + i < 0 then 0 else len + i
  {
    if i < 0 then (if len + i < 0 then 0 else len + i)
    else if i > len then len
    else i
  }

  /** `s.slice(start, end)`. */
  function Slice<T>(s: seq<T>, start: int, end: int): (r: seq<T>)
    ensures |r| <= |s|
    ensures 0 <= start <= end ==> r == s[Min(start, |s|)..Min(end, |s|)]
    ensures end <= start && 0 <= end ==> r == []
  {
    var from, to := SliceIndex(start, |s|), SliceIndex(end, |s|);
    if from < to then s[from..to] else []
  }

  /** The entries page `page` shows: `slice(startIndex, startIndex + 20)`. */
  function PageOf<T>(list: seq<T>, page: int): seq<T> {
    var start := (page - 1) * 20;
    Slice(list, start, start + 20)
  }

  /** Page `p` holds the entries from `(p-1)*20` up to `min(p*20, n)`: never more than twenty. */
  lemma PageWindow<T>(list: seq<T>, p: int)
    requires 1 <= p
    ensures PageOf(list, p) == list[Min((p - 1) * 20, |list|)..Min(p * 20, |list|)]
    ensures |PageOf(list, p)| <= 20
    ensures p <= TotalPages(|list|) ==> |PageOf(list, p)| > 0
  {
  }

  /** Pages `1..k`, one after the other. */
  function Pages<T>(list: seq<T>, k: nat): seq<T> {
    if k == 0 then [] else Pages(list, k - 1) + PageOf(list, k)
  }

  /** The first `k` pages are the first `20 k` entries. */
  lemma {:induction false} PagesArePrefix<T>(list: seq<T>, k: nat)
    ensures Pages(list, k) == list[..Min(k * 20, |list|)]
  {
    if k > 0 {
      PagesArePrefix(list, k - 1);
      PageWindow(list, k);
      var a, b := Min((k - 1) * 20, |list|), Min(k * 20, |list|);
      assert a <= b;
      calc {
        Pages(list, k);
        Pages(list, k - 1) + PageOf(list, k);
        list[..a] + list[a..b];
        list[..b];
      }
    }
  }

  /** Reading every page in order gives back the whole list. */
  lemma PagesCoverList<T>(list: seq<T>)
    ensures Pages(list, TotalPages(|list|)) == list
  {
    PagesArePrefix(list, TotalPages(|list|));
  }

  const WazeBase := "https://waze.com/ul?ll="
  const GoogleBase := "https://www.google.com/maps/dir/?api=1&destination="

  /**
   * `getNavigationUrl`. `lat` and `lon` are the coordinates as JavaScript
   * prints them.
   */
  function NavigationUrl(provider: string, lat: string, lon: string): string {
    if provider == "waze" then WazeBase + (lat + "," + lon) + "&navigate=yes"
    else GoogleBase + (lat + "," + lon)
  }

  lemma PrefixOfConcat(a: string, b: string, c: string)
    ensures IsPrefix(a, a + b + c)
  {
    assert (a + b + c)[..|a|] == a;
  }

  /** The link opens Waze exactly when Waze is chosen, and Google Maps otherwise. */
  lemma NavigationUrlProvider(provider: string, lat: string, lon: string)
    ensures IsPrefix(WazeBase, NavigationUrl(provider, lat, lon)) <==> provider == "waze"
    ensures provider != "waze" ==> IsPrefix(GoogleBase, NavigationUrl(provider, lat, lon))
  {
    var url := NavigationUrl(provider, lat, lon);
    if provider == "waze" {
      PrefixOfConcat(WazeBase, lat + "," + lon, "&navigate=yes");
    } else {
      PrefixOfConcat(GoogleBase, lat + "," + lon, "");
      assert url == GoogleBase + (lat + "," + lon) + "";
      assert url[9] == GoogleBase[9] == 'w';
      assert WazeBase[9] == 'a';
    }
  }

  /** Both links carry the coordinates as `lat,lon`. */
  lemma NavigationUrlCoords(provider: string, lat: string, lon: string)
    ensures Includes(NavigationUrl(provider, lat, lon), lat + "," + lon)
  {
    if provider == "waze" {
      IncludesMiddle(WazeBase, lat + "," + lon, "&navigate=yes");
    } else {
      IncludesMiddle(GoogleBase, lat + "," + lon, "");
      assert NavigationUrl(provider, lat, lon) == GoogleBase + (lat + "," + lon) + "";
    }
  }

  /** An offline entry with its distance from the user. */
  function Relocate(h: Hospital, distTo: (real, real) -> real): Hospital {
    h.(distance := distTo(h.lat, h.lon))
  }

  /** Every entry of `hs` with its distance from the user. */
  function RelocateAll(hs: seq<Hospital>, distTo: (real, real) -> real): (r: seq<Hospital>)
    ensures |r| == |hs|
  {
    seq(|hs|, i requires 0 <= i < |hs| => Relocate(hs[i], distTo))
  }

  /** Located entries sorted nearest first. */
  function NearestFirst(hs: seq<Hospital>, distTo: (real, real) -> real): seq<Hospital> {
    Sorting.InsertionSort(RelocateAll(hs, distTo), Nearer)
  }

  /** The offline list used after a backend failure: located, nearest first. */
  function OfflineFallback(distTo: (real, real) -> real): seq<Hospital> {
    NearestFirst(OfflineHospitals, distTo)
  }

  /** Sorting located entries lists each of them as often as it occurs, with its distance, nearest first. */
  lemma NearestFirstCorrect(hs: seq<Hospital>, distTo: (real, real) -> real)
    ensures Sorting.SortedBy(NearestFirst(hs, distTo), Nearer)
    ensures multiset(NearestFirst(hs, distTo)) == multiset(RelocateAll(hs, distTo))
    ensures |NearestFirst(hs, distTo)| == |hs|
    ensures forall h :: h in NearestFirst(hs, distTo) ==>
      h.distance == distTo(h.lat, h.lon) && exists o :: o in hs && h == Relocate(o, distTo)
  {
    var located := RelocateAll(hs, distTo);
    assert Sorting.TotalPreorder(Nearer);
    Sorting.InsertionSortSorted(located, Nearer);
    forall h | h in NearestFirst(hs, distTo)
      ensures h.distance == distTo(h.lat, h.lon)
      ensures exists o :: o in hs && h == Relocate(o, distTo)
    {
      assert h in multiset(NearestFirst(hs, distTo));
      assert h in located;
      var i :| 0 <= i < |located| && located[i] == h;
      assert hs[i] in hs;
    }
  }

  /**
   * The fallback lists each built-in hospital exactly once, with its
   * distance from the user, nearest first, all marked `OFFLINE`.
   */
  lemma OfflineFallbackCorrect(distTo: (real, real) -> real)
    ensures Sorting.SortedBy(OfflineFallback(distTo), Nearer)
    ensures multiset(OfflineFallback(distTo)) == multiset(RelocateAll(OfflineHospitals, distTo))
    ensures |OfflineFallback(distTo)| == 4
    ensures forall h :: h in OfflineFallback(distTo) ==>
      && h.source == "OFFLINE" && h.distance == distTo(h.lat, h.lon)
      && exists o :: o in OfflineHospitals && h == Relocate(o, distTo)
  {
    NearestFirstCorrect(OfflineHospitals, distTo);
    forall h | h in OfflineFallback(distTo) ensures h.source == "OFFLINE" {
      var o :| o in OfflineHospitals && h == Relocate(o, distTo);
    }
  }

  /** What the backend's hospital endpoint answers. */
  datatype ApiResult = ApiResult(success: bool, data: seq<Hospital>)

  /** `result.success && result.data.length > 0`. */
  predicate Found(r: ApiResult) {
    r.success && |r.data| > 0
  }

  /** A place the geocoder returns. */
  datatype Place = Place(lat: string, lon: string, displayName: string)

  /** The text shown for a geolocation error code. */
  function GpsErrorText(code: int): (r: string)
    ensures code !in {1, 2, 3} ==> r == "GPS Error"
    ensures r != ""
  {
    if code == 1 then "Permission Denied (Allow Location)"
    else if code == 2 then "Position Unavailable (Check GPS)"
    else if code == 3 then "Timeout (Move to open area)"
    else "GPS Error"
  }

  /** Why a GPS-located fetch falls back to the offline list, if it does. */
  function FailureReason(response: Ext<ApiResult>): (r: Option<string>)
    ensures r.None? <==> response.Ok? && Found(response.value)
    ensures response.Fail? ==> r == Some(response.message)
  {
    match response
    case Fail(m) => Some(m)
    case Ok(result) => if Found(result) then None else Some("No hospitals found via API")
  }

  /** The page's state. */
  class Finder {
    var hospitals: seq<Hospital>
    var loading: bool
    var status: string
    var isOnline: bool
    var searchQuery: string
    var mapProvider: string
    var currentPage: int

    /** The page exists: from 1 up to the last page (page 1 when there is none). */
    ghost predicate Valid()
      reads this
    {
      1 <= currentPage && (currentPage == 1 || currentPage <= TotalPages(|Visible(hospitals)|))
    }

    /** The entries on the current page. */
    function Shown(): (r: seq<Hospital>)
      reads this
      ensures |r| <= ItemsPerPage
      ensures Valid() && Visible(hospitals) != [] ==> r != []
    {
      if 1 <= currentPage then PageWindow(Visible(hospitals), currentPage); PageOf(Visible(hospitals), currentPage)
      else PageOf(Visible(hospitals), currentPage)
    }

    constructor (online: bool)
      ensures hospitals == [] && !loading && status == "Waiting for location..."
      ensures isOnline == online && searchQuery == "" && mapProvider == "google" && currentPage == 1
      ensures Valid()
    {
      hospitals := [];
      loading := false;
      status := "Waiting for location...";
      isOnline := online;
      searchQuery := "";
      mapProvider := "google";
      currentPage := 1;
    }

    /** `setHospitals`, and the effect that goes back to page 1 whenever the list is replaced. */
    method SetHospitals(hs: seq<Hospital>)
      modifies this
      ensures hospitals == hs && currentPage == 1 && Valid()
      ensures loading == old(loading) && status == old(status) && isOnline == old(isOnline)
      ensures searchQuery == old(searchQuery) && mapProvider == old(mapProvider)
    {
      hospitals := hs;
      currentPage := 1;
    }

    /** `handlePageChange`: moves only to a page that exists. */
    method HandlePageChange(newPage: int)
      requires Valid()
      modifies this
      ensures currentPage == if 1 <= newPage <= TotalPages(|Visible(hospitals)|) then newPage else old(currentPage)
      ensures hospitals == old(hospitals) && loading == old(loading) && status == old(status)
      ensures isOnline == old(isOnline) && searchQuery == old(searchQuery) && mapProvider == old(mapProvider)
      ensures Valid()
    {
      if newPage >= 1 && newPage <= TotalPages(|Visible(hospitals)|) {
        currentPage := newPage;
      }
    }

    /** The browser has no geolocation: the built-in list as it is. */
    method NoGeolocation()
      modifies this
      ensures hospitals == OfflineHospitals && currentPage == 1 && Valid()
      ensures status == "GPS not supported. Using offline database." && !loading
      ensures isOnline == old(isOnline) && searchQuery == old(searchQuery) && mapProvider == old(mapProvider)
    {
      status := "GPS not supported. Using offline database.";
      SetHospitals(OfflineHospitals);
      loading := false;
    }

    /** Geolocation failed with `code`: the built-in list as it is. */
    method OnPositionError(code: int)
      modifies this
      ensures hospitals == OfflineHospitals && currentPage == 1 && Valid()
      ensures status == GpsErrorText(code) + ". Showing offline data." && !loading
      ensures isOnline == old(isOnline) && searchQuery == old(searchQuery) && mapProvider == old(mapProvider)
    {
      status := GpsErrorText(code) + ". Showing offline data.";
      SetHospitals(OfflineHospitals);
      loading := false;
    }

    /**
     * A GPS fix arrived. `response` is the backend's answer for that
     * position (a failure carries the error's message), `located` the
     * position as the status line prints it, and `distTo` the distance of
     * a point from the position.
     */
    method OnPosition(response: Ext<ApiResult>, located: string, distTo: (real, real) -> real)
      modifies this
      ensures FailureReason(response).None? ==>
        && hospitals == response.value.data && isOnline
        && status == "Location found: " + located
      ensures FailureReason(response).Some? ==>
        && hospitals == OfflineFallback(distTo) && !isOnline
        && status == "API Error: " + FailureReason(response).value + ". Showing offline data."
      ensures currentPage == 1 && !loading && Valid()
      ensures searchQuery == old(searchQuery) && mapProvider == old(mapProvider)
    {
      var reason := FailureReason(response);
      if reason.None? {
        SetHospitals(response.value.data);
        isOnline := true;
        status := "Location found: " + located;
      } else {
        isOnline := false;
        status := "API Error: " + reason.value + ". Showing offline data.";
        SetHospitals(OfflineFallback(distTo));
      }
      loading := false;
    }

    /**
     * `searchLocation`. `geo` is the geocoder's answer for the query and
     * `fetched` the backend's answer for the first place found (a failure
     * of either ends the search with `Search failed.`).
     */
    method SearchLocation(geo: Ext<seq<Place>>, fetched: Ext<ApiResult>)
      requires Valid()
      modifies this
      ensures IsBlank(old(searchQuery)) ==>
        && hospitals == old(hospitals) && currentPage == old(currentPage) && status == old(status)
        && loading == old(loading) && isOnline == old(isOnline)
      ensures !IsBlank(old(searchQuery)) ==> !loading
      ensures !IsBlank(old(searchQuery)) && (geo.Fail? || (geo.Ok? && |geo.value| > 0 && fetched.Fail?)) ==>
        && status == "Search failed."
        && hospitals == old(hospitals) && currentPage == old(currentPage) && isOnline == old(isOnline)
      ensures !IsBlank(old(searchQuery)) && geo == Ok([]) ==>
        && status == "Location not found."
        && hospitals == old(hospitals) && currentPage == old(currentPage) && isOnline == old(isOnline)
      ensures !IsBlank(old(searchQuery)) && geo.Ok? && |geo.value| > 0 && fetched.Ok? && Found(fetched.value) ==>
        && status == "Found: " + geo.value[0].displayName
        && hospitals == fetched.value.data && currentPage == 1 && isOnline
      ensures !IsBlank(old(searchQuery)) && geo.Ok? && |geo.value| > 0 && fetched.Ok? && !Found(fetched.value) ==>
        && status == "No hospitals found near this location."
        && hospitals == [] && currentPage == 1 && isOnline == old(isOnline)
      ensures searchQuery == old(searchQuery) && mapProvider == old(mapProvider) && Valid()
    {
      TrimEmptyIffBlank(searchQuery);
      if Trim(searchQuery) == "" {
        return;
      }
      loading := true;
      status := "Searching location...";
      match geo {
        case Fail(_) =>
          status := "Search failed.";
        case Ok(places) =>
          if |places| > 0 {
            status := "Found: " + places[0].displayName;
            match fetched {
              case Fail(_) =>
                status := "Search failed.";
              case Ok(result) =>
                if Found(result) {
                  SetHospitals(result.data);
                  isOnline := true;
                } else {
                  status := "No hospitals found near this location.";
                  SetHospitals([]);
                }
            }
          } else {
            status := "Location not found.";
          }
      }
      loading := false;
    }
  }
}
