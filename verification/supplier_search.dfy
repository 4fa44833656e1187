/** The state of the find-a-supplier page and the handlers that change it:
    the text search, "use my location", the pager and the map's recentring
    ref. Each handler is split where the page waits: the geocoder fetch is
    an input of the step after the `await`, and the browser's two position
    callbacks are methods of their own. */
module SupplierSearch {
  import opened Text
  import opened Locator

  const InitialQuery := "SY1 1AA"
  const EmptyQueryMsg := "Please enter a UK postcode, town, or address."
  const NotFoundMsg := "No location found. Try a postcode, town, or a more specific address."
  const GeocodeFailedMsg := "Geocoding failed. Please try again in a moment."
  const UnsupportedMsg := "Geolocation is not supported in this browser."
  const DeniedMsg := "Location access was denied. Please enter a postcode instead."
  const OwnLocationCaption := "Your location"

  /** What the geocoder call produced: a response, or a thrown error (network
      failure, unreadable JSON). */
  datatype FetchOutcome = Responded(resp: GeoResponse) | Threw

  class SearchPage {
    const dist: DistanceKm
    const suppliers: seq<Supplier>

    var query: string
    var searching: bool
    var geoError: string
    var clientPoint: Option<Location>
    var results: seq<Scored>
    var page: int

    /** The page is a valid one for the results. */
    ghost predicate PageValid()
      reads this`page, this`results
    {
      && 0 <= page
      && (results == [] ==> page == 0)
      && (results != [] ==> page < PageCount(|results|))
    }

    /** The results are always the ranking from the client point that
        produced them, and there are none before a client point exists. */
    ghost predicate Ranked()
      reads this`clientPoint, this`results
    {
      && (clientPoint.None? ==> results == [])
      && (clientPoint.Some? ==> results == Rank(dist, clientPoint.value.lat, clientPoint.value.lng, suppliers))
    }

    ghost predicate Valid()
      reads this
    {
      PageValid() && Ranked()
    }

    constructor (dist: DistanceKm, suppliers: seq<Supplier>)
      ensures Valid()
      ensures this.dist == dist && this.suppliers == suppliers
      ensures query == InitialQuery && !searching && geoError == ""
      ensures clientPoint == None && results == [] && page == 0
    {
      this.dist := dist;
      this.suppliers := suppliers;
      query := InitialQuery;
      searching := false;
      geoError := "";
      clientPoint := None;
      results := [];
      page := 0;
    }

    /** Typing in the search box. */
    method SetQuery(q: string)
      modifies this`query
      ensures query == q
    {
      query := q;
    }

    /** `onSearch` up to its `await`: every search clears the error, goes back
        to the first page and is marked as running; a blank query stops there
        with a message. The trimmed query is returned when the geocoder is to
        be asked. */
    method SearchStart() returns (q: Option<string>)
      requires Valid()
      modifies this`searching, this`geoError, this`page
      ensures Valid()
      ensures page == 0
      ensures Trim(query) == [] ==> q == None && geoError == EmptyQueryMsg && !searching
      ensures Trim(query) != [] ==> q == Some(Trim(query)) && geoError == "" && searching
    {
      geoError := "";
      searching := true;
      page := 0;

      var trimmed := Trim(query);
      if trimmed == [] {
        geoError := EmptyQueryMsg;
        searching := false;
        return None;
      }
      return Some(trimmed);
    }

    /** `onSearch` after its `await`: an accepted hit replaces the client point
        and the results wholesale; a miss or a thrown error sets its message
        and keeps them. The search is no longer running. */
    method SearchDone(parse: Parser, q: string, fetched: FetchOutcome)
      requires Valid()
      modifies this`searching, this`geoError, this`clientPoint, this`results
      ensures Valid()
      ensures !searching && page == old(page)
      ensures fetched.Threw? ==>
        geoError == GeocodeFailedMsg && clientPoint == old(clientPoint) && results == old(results)
      ensures fetched.Responded? && AcceptGeocode(parse, fetched.resp, q).None? ==>
        geoError == NotFoundMsg && clientPoint == old(clientPoint) && results == old(results)
      ensures fetched.Responded? && AcceptGeocode(parse, fetched.resp, q).Some? ==>
        var hit := AcceptGeocode(parse, fetched.resp, q).value;
        && geoError == old(geoError)
        && clientPoint == Some(hit)
        && results == Rank(dist, hit.lat, hit.lng, suppliers)
    {
      match fetched {
        case Threw =>
          geoError := GeocodeFailedMsg;
        case Responded(resp) =>
          var client := AcceptGeocode(parse, resp, q);
          if client.None? {
            geoError := NotFoundMsg;
          } else {
            clientPoint := client;
            results := Rank(dist, client.value.lat, client.value.lng, suppliers);
          }
      }
      searching := false;
    }

    /** `onUseMyLocation` up to the position request: the same reset; without a
        geolocation API it stops with a message. */
    method LocateStart(supported: bool)
      requires Valid()
      modifies this`searching, this`geoError, this`page
      ensures Valid()
      ensures page == 0
      ensures !supported ==> geoError == UnsupportedMsg && !searching
      ensures supported ==> geoError == "" && searching
    {
      geoError := "";
      searching := true;
      page := 0;

      if !supported {
        geoError := UnsupportedMsg;
        searching := false;
      }
    }

    /** The position callback: the ranking from the device position replaces
        the client point and the results. */
    method OnPosition(lat: real, lng: real)
      requires Valid()
      modifies this`searching, this`clientPoint, this`results
      ensures Valid()
      ensures !searching && page == old(page)
      ensures clientPoint == Some(Location(lat, lng, OwnLocationCaption))
      ensures results == Rank(dist, lat, lng, suppliers)
    {
      clientPoint := Some(Location(lat, lng, OwnLocationCaption));
      results := Rank(dist, lat, lng, suppliers);
      searching := false;
    }

    /** The error callback (denied, timed out, unavailable): a message, and the
        results stay. */
    method OnPositionError()
      requires Valid()
      modifies this`searching, this`geoError
      ensures Valid()
      ensures !searching && geoError == DeniedMsg
    {
      geoError := DeniedMsg;
      searching := false;
    }

    /** The Prev button, which exists only while there are results. */
    method Prev()
      requires Valid() && results != []
      modifies this`page
      ensures Valid()
      ensures page == PrevPage(old(page))
    {
      page := PrevPage(page);
    }

    /** The Next button, which exists only while there are results. */
    method Next()
      requires Valid() && results != []
      modifies this`page
      ensures Valid()
      ensures page == NextPage(old(page), PageCount(|results|))
    {
      page := NextPage(page, PageCount(|results|));
    }

    /** The cards on screen. */
    function VisibleResults(): (r: seq<Scored>)
      reads this
      requires Valid()
      ensures |r| <= PageSize
      ensures results != [] ==> r != []
      ensures forall e :: e in r ==> e in results
    {
      Visible(results, page)
    }
  }

  /** The key `MapAutoCenter` compares: `toFixed(6)` of a coordinate, as the
      sign the string starts with and the rounded number of millionths
      (ties round up, on the magnitude). */
  datatype Fixed6 = Fixed6(negative: bool, micro: int)

  function ToFixed6(x: real): (k: Fixed6)
    ensures k.negative <==> x < 0.0
    ensures k.micro >= 0
    ensures var m := if x < 0.0 then -x else x;
      m * 1000000.0 - 0.5 < k.micro as real <= m * 1000000.0 + 0.5
  {
    var m := if x < 0.0 then -x else x;
    Fixed6(x < 0.0, (m * 1000000.0 + 0.5).Floor)
  }

  /** Two coordinates with the same key are less than a millionth of a degree
      apart. */
  lemma SameKeyClose(x: real, y: real)
    requires ToFixed6(x) == ToFixed6(y)
    ensures -0.000001 < x - y < 0.000001
  {
    var mx := if x < 0.0 then -x else x;
    var my := if y < 0.0 then -y else y;
    var n := (mx * 1000000.0 + 0.5).Floor;
    assert n as real <= mx * 1000000.0 + 0.5 < n as real + 1.0;
    assert n as real <= my * 1000000.0 + 0.5 < n as real + 1.0;
    assert -1.0 < mx * 1000000.0 - my * 1000000.0 < 1.0;
  }

  /** The `last` ref of `MapAutoCenter`: the map is moved only when the
      target's key differs from the last one it was moved to. */
  class MapAutoCenter {
    var last: Option<(Fixed6, Fixed6)>

    constructor ()
      ensures last == None
    {
      last := None;
    }

    method Update(target: Option<(real, real)>) returns (setView: bool)
      modifies this
      ensures setView <==> target.Some? && old(last) != Some((ToFixed6(target.value.0), ToFixed6(target.value.1)))
      ensures last == if setView then Some((ToFixed6(target.value.0), ToFixed6(target.value.1))) else old(last)
    {
      setView := false;
      if target.None? {
        return;
      }
      var key := (ToFixed6(target.value.0), ToFixed6(target.value.1));
      if last != Some(key) {
        last := Some(key);
        setView := true;
      }
    }
  }
}
