/** The pure part of the find-a-supplier page: ranking suppliers by distance,
    two-per-page pagination, the "Showing s-e of n" line, the map centre, the
    acceptance of a geocoder answer and the `tel:` link. */
module Locator {
  import opened Text
  import opened Numbers

  const KmToMiles: real := 0.621371
  const PageSize: nat := 2
  /** Birmingham, the map's fallback centre. */
  const FallbackLat: real := 52.4862
  const FallbackLng: real := -1.8904

  datatype Supplier = Supplier(
    id: string,
    name: string,
    kind: string,
    city: string,
    postcode: string,
    phone: string,
    lat: real,
    lng: real)

  /** A supplier with the `distanceMi` field the ranking adds. */
  datatype Scored = Scored(supplier: Supplier, distanceMi: real)

  /** `haversineKm(lat1, lon1, lat2, lon2)`, left abstract. */
  type DistanceKm = (real, real, real, real) -> real

  function MilesTo(dist: DistanceKm, lat: real, lng: real, s: Supplier): (mi: real)
    ensures mi == 0.0 <==> dist(lat, lng, s.lat, s.lng) == 0.0
    ensures dist(lat, lng, s.lat, s.lng) >= 0.0 ==> mi >= 0.0
  {
    dist(lat, lng, s.lat, s.lng) * KmToMiles
  }

  /** The `map` step: every supplier record, unchanged, with its distance. */
  function Score(dist: DistanceKm, lat: real, lng: real, suppliers: seq<Supplier>): (r: seq<Scored>)
    ensures |r| == |suppliers|
    ensures forall i :: 0 <= i < |r| ==>
      r[i].supplier == suppliers[i] && r[i].distanceMi == MilesTo(dist, lat, lng, suppliers[i])
  {
    if suppliers == [] then []
    else [Scored(suppliers[0], MilesTo(dist, lat, lng, suppliers[0]))] + Score(dist, lat, lng, suppliers[1..])
  }

  predicate SortedByDistance(s: seq<Scored>) {
    forall i, j :: 0 <= i < j < |s| ==> s[i].distanceMi <= s[j].distanceMi
  }

  /** The elements of `s` whose distance is `k`, in their order in `s`. */
  function WithDistance(s: seq<Scored>, k: real): (r: seq<Scored>)
    ensures |r| <= |s|
  {
    if s == [] then []
    else (if s[0].distanceMi == k then [s[0]] else []) + WithDistance(s[1..], k)
  }

  /** Places `x` before the first element that is not closer than it. */
  function Insert(x: Scored, s: seq<Scored>): (r: seq<Scored>)
    ensures |r| == |s| + 1
    ensures multiset(r) == multiset(s) + multiset{x}
    ensures r[0] == x || (s != [] && r[0] == s[0])
  {
    if s == [] || x.distanceMi <= s[0].distanceMi then [x] + s
    else
      assert s == [s[0]] + s[1..];
      [s[0]] + Insert(x, s[1..])
  }

  /** `Array.prototype.sort` with the comparator `a.distanceMi - b.distanceMi`,
      which is stable: an insertion sort that keeps equal distances in their
      original order. */
  function SortByDistance(s: seq<Scored>): (r: seq<Scored>)
    ensures |r| == |s|
    ensures multiset(r) == multiset(s)
    ensures SortedByDistance(r)
  {
    if s == [] then []
    else
      assert s == [s[0]] + s[1..];
      var t := SortByDistance(s[1..]);
      InsertSorted(s[0], t);
      Insert(s[0], t)
  }

  /** Insertion keeps a sorted list sorted. */
  lemma {:induction false} InsertSorted(x: Scored, s: seq<Scored>)
    requires SortedByDistance(s)
    ensures SortedByDistance(Insert(x, s))
  {
    var r := Insert(x, s);
    if s == [] || x.distanceMi <= s[0].distanceMi {
      assert r == [x] + s;
      forall i, j | 0 <= i < j < |r| ensures r[i].distanceMi <= r[j].distanceMi {
        if i == 0 {
          assert r[j] == s[j - 1];
          assert s[0].distanceMi <= s[j - 1].distanceMi || j == 1;
        } else {
          assert r[i] == s[i - 1] && r[j] == s[j - 1];
        }
      }
    } else {
      var t := Insert(x, s[1..]);
      assert SortedByDistance(s[1..]) by {
        forall i, j | 0 <= i < j < |s[1..]| ensures s[1..][i].distanceMi <= s[1..][j].distanceMi {
          assert s[1..][i] == s[i + 1] && s[1..][j] == s[j + 1];
        }
      }
      InsertSorted(x, s[1..]);
      assert r == [s[0]] + t;
      assert s[0].distanceMi <= t[0].distanceMi by {
        if t[0] != x {
          assert t[0] == s[1];
        }
      }
      forall i, j | 0 <= i < j < |r| ensures r[i].distanceMi <= r[j].distanceMi {
        if i == 0 {
          assert r[j] == t[j - 1];
          assert t[0].distanceMi <= t[j - 1].distanceMi || j == 1;
        } else {
          assert r[i] == t[i - 1] && r[j] == t[j - 1];
        }
      }
    }
  }

  /** The ranking done by both searches: score, then sort by distance. */
  function Rank(dist: DistanceKm, lat: real, lng: real, suppliers: seq<Supplier>): (r: seq<Scored>)
    ensures |r| == |suppliers|
  {
    SortByDistance(Score(dist, lat, lng, suppliers))
  }

  lemma WithDistanceCons(a: Scored, t: seq<Scored>, k: real)
    ensures WithDistance([a] + t, k) == (if a.distanceMi == k then [a] else []) + WithDistance(t, k)
  {
    assert ([a] + t)[1..] == t;
  }

  /** Inserting an entry adds it to the entries at its own distance, ahead
      of them, and changes no other distance. */
  lemma {:induction false} InsertWithDistance(x: Scored, s: seq<Scored>, k: real)
    ensures WithDistance(Insert(x, s), k) == (if x.distanceMi == k then [x] else []) + WithDistance(s, k)
  {
    if s == [] || x.distanceMi <= s[0].distanceMi {
      WithDistanceCons(x, s, k);
    } else {
      var t := Insert(x, s[1..]);
      InsertWithDistance(x, s[1..], k);
      WithDistanceCons(s[0], t, k);
      assert s == [s[0]] + s[1..];
      WithDistanceCons(s[0], s[1..], k);
      var head := if s[0].distanceMi == k then [s[0]] else [];
      var mid := if x.distanceMi == k then [x] else [];
      var rest := WithDistance(s[1..], k);
      if head == [] {
        assert head + (mid + rest) == mid + (head + rest);
      } else {
        assert mid == [];
        assert head + (mid + rest) == mid + (head + rest);
      }
    }
  }

  /** Stability: for every distance, the suppliers at that distance keep their
      relative order. */
  lemma {:induction false} SortKeepsEqualDistanceOrder(s: seq<Scored>, k: real)
    ensures WithDistance(SortByDistance(s), k) == WithDistance(s, k)
  {
    if s != [] {
      SortKeepsEqualDistanceOrder(s[1..], k);
      InsertWithDistance(s[0], SortByDistance(s[1..]), k);
    }
  }

  function Suppliers(s: seq<Scored>): (r: seq<Supplier>)
    ensures |r| == |s| && forall i :: 0 <= i < |s| ==> r[i] == s[i].supplier
  {
    if s == [] then [] else [s[0].supplier] + Suppliers(s[1..])
  }

  lemma {:induction false} InsertSuppliers(x: Scored, s: seq<Scored>)
    ensures multiset(Suppliers(Insert(x, s))) == multiset(Suppliers(s)) + multiset{x.supplier}
  {
    if s == [] || x.distanceMi <= s[0].distanceMi {
      assert ([x] + s)[1..] == s;
    } else {
      var t := Insert(x, s[1..]);
      InsertSuppliers(x, s[1..]);
      assert ([s[0]] + t)[1..] == t;
      assert Suppliers(s) == [s[0].supplier] + Suppliers(s[1..]);
    }
  }

  lemma {:induction false} SortSuppliers(s: seq<Scored>)
    ensures multiset(Suppliers(SortByDistance(s))) == multiset(Suppliers(s))
  {
    if s != [] {
      SortSuppliers(s[1..]);
      InsertSuppliers(s[0], SortByDistance(s[1..]));
    }
  }

  /** The ranking is a permutation of the supplier list, every entry carries
      its own supplier's distance, it is ordered by distance, and suppliers
      at equal distance keep the list's order. */
  lemma RankSpec(dist: DistanceKm, lat: real, lng: real, suppliers: seq<Supplier>, k: real)
    ensures var r := Rank(dist, lat, lng, suppliers);
      && multiset(Suppliers(r)) == multiset(suppliers)
      && (forall e :: e in r ==> e.distanceMi == MilesTo(dist, lat, lng, e.supplier))
      && SortedByDistance(r)
      && WithDistance(r, k) == WithDistance(Score(dist, lat, lng, suppliers), k)
  {
    var sc := Score(dist, lat, lng, suppliers);
    var r := Rank(dist, lat, lng, suppliers);
    SortSuppliers(sc);
    assert Suppliers(sc) == suppliers;
    forall e | e in r ensures e.distanceMi == MilesTo(dist, lat, lng, e.supplier) {
      assert e in multiset(sc);
    }
    SortKeepsEqualDistanceOrder(sc, k);
  }

  /** The first entry at distance `k` heads the list of entries at `k`. */
  lemma {:induction false} FirstInClass(s: seq<Scored>, k: real, j: nat)
    requires j < |s| && s[j].distanceMi == k
    requires forall i :: 0 <= i < j ==> s[i].distanceMi != k
    ensures WithDistance(s, k) != [] && WithDistance(s, k)[0] == s[j]
  {
    if j > 0 {
      FirstInClass(s[1..], k, j - 1);
    }
  }

  /** A sorted list of non-negative distances that holds a zero starts at
      zero. */
  lemma SortedStartsAtZero(r: seq<Scored>, h: nat)
    requires SortedByDistance(r) && h < |r| && r[h].distanceMi == 0.0
    requires forall e :: e in r ==> e.distanceMi >= 0.0
    ensures r[0].distanceMi == 0.0
  {
    assert r[0] in r;
  }

  /** With distances that are never negative, no ranked entry is negative. */
  lemma RankNotNegative(dist: DistanceKm, lat: real, lng: real, suppliers: seq<Supplier>)
    requires forall a, b, c, d :: dist(a, b, c, d) >= 0.0
    ensures forall e :: e in Rank(dist, lat, lng, suppliers) ==> e.distanceMi >= 0.0
  {
    RankSpec(dist, lat, lng, suppliers, 0.0);
    forall e | e in Rank(dist, lat, lng, suppliers) ensures e.distanceMi >= 0.0 {
      assert e.distanceMi == MilesTo(dist, lat, lng, e.supplier);
    }
  }

  /** With distances that are never negative, the ranking from a point starts
      with the first supplier of the list that stands on it. */
  lemma FirstAtPointRanksFirst(dist: DistanceKm, lat: real, lng: real, suppliers: seq<Supplier>, j: nat)
    requires forall a, b, c, d :: dist(a, b, c, d) >= 0.0
    requires j < |suppliers| && dist(lat, lng, suppliers[j].lat, suppliers[j].lng) == 0.0
    requires forall i :: 0 <= i < j ==> dist(lat, lng, suppliers[i].lat, suppliers[i].lng) != 0.0
    ensures var r := Rank(dist, lat, lng, suppliers);
      r != [] && r[0].supplier == suppliers[j] && r[0].distanceMi == 0.0
  {
    var sc := Score(dist, lat, lng, suppliers);
    var r := Rank(dist, lat, lng, suppliers);
    RankStartsAtZero(dist, lat, lng, suppliers, j);
    SortKeepsEqualDistanceOrder(sc, 0.0);
    assert forall i :: 0 <= i < j ==> sc[i].distanceMi != 0.0 by {
      forall i | 0 <= i < j ensures sc[i].distanceMi != 0.0 {
        assert sc[i].distanceMi == MilesTo(dist, lat, lng, suppliers[i]);
      }
    }
    FirstInClass(sc, 0.0, j);
    FirstInClass(r, 0.0, 0);
  }

  /** With distances that are never negative, a ranking that includes a
      supplier at distance 0 starts at distance 0. */
  lemma RankStartsAtZero(dist: DistanceKm, lat: real, lng: real, suppliers: seq<Supplier>, j: nat)
    requires forall a, b, c, d :: dist(a, b, c, d) >= 0.0
    requires j < |suppliers| && dist(lat, lng, suppliers[j].lat, suppliers[j].lng) == 0.0
    ensures var r := Rank(dist, lat, lng, suppliers);
      r != [] && r[0].distanceMi == 0.0
  {
    var sc := Score(dist, lat, lng, suppliers);
    var r := Rank(dist, lat, lng, suppliers);
    RankNotNegative(dist, lat, lng, suppliers);
    assert sc[j] in multiset(r);
    var h :| 0 <= h < |r| && r[h] == sc[j];
    SortedStartsAtZero(r, h);
  }

  /** Searching from a supplier's own position ranks it first, when the
      distance is zero exactly between equal points and no supplier before
      it in the list stands at the same point. */
  lemma SupplierAtPointRanksFirst(dist: DistanceKm, suppliers: seq<Supplier>, i: nat)
    requires i < |suppliers|
    requires forall a, b, c, d :: dist(a, b, c, d) >= 0.0
    requires forall a, b, c, d :: dist(a, b, c, d) == 0.0 <==> a == c && b == d
    requires forall h :: 0 <= h < i ==> (suppliers[h].lat, suppliers[h].lng) != (suppliers[i].lat, suppliers[i].lng)
    ensures var r := Rank(dist, suppliers[i].lat, suppliers[i].lng, suppliers);
      r != [] && r[0].supplier == suppliers[i] && r[0].distanceMi == 0.0
  {
    FirstAtPointRanksFirst(dist, suppliers[i].lat, suppliers[i].lng, suppliers, i);
  }

  /** The entries at distance `k` come from `s` and are at distance `k`. */
  lemma {:induction false} WithDistanceMembers(s: seq<Scored>, k: real, x: Scored)
    requires x in WithDistance(s, k)
    ensures x in s && x.distanceMi == k
  {
    var h := if s[0].distanceMi == k then [s[0]] else [];
    if x != s[0] || h == [] {
      assert x in WithDistance(s[1..], k);
      WithDistanceMembers(s[1..], k, x);
    }
  }

  lemma {:induction false} InWithDistance(x: Scored, s: seq<Scored>)
    requires x in s
    ensures x in WithDistance(s, x.distanceMi)
  {
    if s[0] != x {
      assert x in s[1..];
      InWithDistance(x, s[1..]);
    }
  }

  lemma WithDistanceTail(a: seq<Scored>, b: seq<Scored>, k: real)
    requires a != [] && b != [] && a[0] == b[0]
    requires WithDistance(a, k) == WithDistance(b, k)
    ensures WithDistance(a[1..], k) == WithDistance(b[1..], k)
  {
    var h := if a[0].distanceMi == k then [a[0]] else [];
    assert WithDistance(a, k) == h + WithDistance(a[1..], k);
    assert WithDistance(b, k) == h + WithDistance(b[1..], k);
    assert WithDistance(a[1..], k) == (h + WithDistance(a[1..], k))[|h|..];
    assert WithDistance(b[1..], k) == (h + WithDistance(b[1..], k))[|h|..];
  }

  /** The first elements of two sorted sequences with the same equal-distance
      subsequences are the same. */
  lemma SameHead(a: seq<Scored>, b: seq<Scored>)
    requires a != [] && b != []
    requires SortedByDistance(a) && SortedByDistance(b)
    requires forall k :: WithDistance(a, k) == WithDistance(b, k)
    ensures a[0] == b[0]
  {
    var m, n := a[0].distanceMi, b[0].distanceMi;
    InWithDistance(b[0], b);
    assert b[0] in WithDistance(a, n);
    WithDistanceMembers(a, n, b[0]);
    InWithDistance(a[0], a);
    assert a[0] in WithDistance(b, m);
    WithDistanceMembers(b, m, a[0]);
    assert m == n;
    assert WithDistance(a, m)[0] == a[0];
    assert WithDistance(b, m)[0] == b[0];
  }

  /** Any ordering that is sorted by distance and keeps equal distances in
      order is exactly the ranking: the insertion sort agrees with every
      stable sort. */
  lemma {:induction false} StableSortUnique(a: seq<Scored>, b: seq<Scored>)
    requires SortedByDistance(a) && SortedByDistance(b)
    requires forall k :: WithDistance(a, k) == WithDistance(b, k)
    ensures a == b
    decreases |a|
  {
    if a == [] || b == [] {
      BothEmpty(a, b);
    } else {
      SameHead(a, b);
      var a', b' := a[1..], b[1..];
      forall k ensures WithDistance(a', k) == WithDistance(b', k) {
        WithDistanceTail(a, b, k);
      }
      assert SortedByDistance(a') && SortedByDistance(b');
      StableSortUnique(a', b');
      assert a == [a[0]] + a' && b == [b[0]] + b';
    }
  }

  lemma BothEmpty(a: seq<Scored>, b: seq<Scored>)
    requires a == [] || b == []
    requires forall k :: WithDistance(a, k) == WithDistance(b, k)
    ensures a == [] && b == []
  {
    if a != [] {
      InWithDistance(a[0], a);
      assert false;
    }
    if b != [] {
      InWithDistance(b[0], b);
      assert false;
    }
  }

  // ---------- Pagination ----------

  /** `pageCount`: 0 without results, else the least page count that holds
      them two at a time. */
  function PageCount(n: nat): (r: nat)
    ensures n == 0 ==> r == 0
    ensures n > 0 ==> PageSize * r >= n && PageSize * (r - 1) < n
  {
    if n == 0 then 0 else (n + PageSize - 1) / PageSize
  }

  /** `visibleResults`: the half-open slice [2·page, 2·page + 2) clipped to
      the results, empty past the end. */
  function Visible<T>(results: seq<T>, page: nat): (r: seq<T>)
    ensures |r| <= PageSize
    ensures |r| == (if PageSize * page >= |results| then 0 else Min(PageSize, |results| - PageSize * page))
    ensures forall i :: 0 <= i < |r| ==> r[i] == results[PageSize * page + i]
  {
    var start := Min(PageSize * page, |results|);
    results[start..Min(start + PageSize, |results|)]
  }

  /** Every result is shown on exactly one page: result `i` is entry `i % 2`
      of page `i / 2`, and that page is a valid one. */
  lemma PagesCoverResults<T>(results: seq<T>, i: nat)
    requires i < |results|
    ensures i / PageSize < PageCount(|results|)
    ensures i % PageSize < |Visible(results, i / PageSize)|
    ensures Visible(results, i / PageSize)[i % PageSize] == results[i]
  {
    assert PageSize * (i / PageSize) + i % PageSize == i;
  }

  /** Pages past the last are empty, and every valid page shows something. */
  lemma PageBeyondEndEmpty<T>(results: seq<T>, page: nat)
    ensures page >= PageCount(|results|) <==> Visible(results, page) == []
  {
  }

  /** `showingText`: `None` is the empty string, otherwise the 1-based bounds
      and the total. */
  datatype Showing = Showing(start: int, end: int, total: nat)

  function ShowingText(n: nat, page: int): (r: Option<Showing>)
    ensures r.None? <==> n == 0
    ensures r.Some? ==> r.value.total == n && r.value.end <= n
    ensures r.Some? && page >= 0 ==> r.value.start >= 1
  {
    if n == 0 then None
    else Some(Showing(page * PageSize + 1, Min((page + 1) * PageSize, n), n))
  }

  /** For a valid page the line's bounds are within the results and count
      exactly the results shown. */
  lemma ShowingMatchesVisible<T>(results: seq<T>, page: nat)
    requires page < PageCount(|results|)
    ensures var t := ShowingText(|results|, page);
      && t.Some?
      && 1 <= t.value.start <= t.value.end <= |results|
      && t.value.end - t.value.start + 1 == |Visible(results, page)|
      && results[t.value.start - 1] == Visible(results, page)[0]
  {
  }

  /** Prev: one page back, never below the first. */
  function PrevPage(p: int): (q: int)
    ensures q >= 0
    ensures p >= 1 ==> q == p - 1
    ensures p <= 1 ==> q == 0
  {
    if p - 1 < 0 then 0 else p - 1
  }

  /** Next: one page on, never past the last. */
  function NextPage(p: int, pageCount: int): (q: int)
    ensures q <= pageCount - 1 && q <= p + 1
    ensures p + 1 < pageCount ==> q == p + 1
    ensures p + 1 >= pageCount ==> q == pageCount - 1
  {
    Min(pageCount - 1, p + 1)
  }

  /** With results on screen (the only time the pager exists), Prev and Next
      keep the page valid and move it by at most one. */
  lemma PagerKeepsPageValid(n: nat, p: int)
    requires n > 0 && 0 <= p < PageCount(n)
    ensures 0 <= PrevPage(p) < PageCount(n) && 0 <= NextPage(p, PageCount(n)) < PageCount(n)
    ensures PrevPage(p) == (if p == 0 then 0 else p - 1)
    ensures NextPage(p, PageCount(n)) == (if p == PageCount(n) - 1 then p else p + 1)
  {
  }

  // ---------- Map centre ----------

  /** A resolved location and its label. */
  datatype Location = Location(lat: real, lng: real, caption: string)  // `label` in the page

  /** `mapCenter`: the client point, else the first supplier, else Birmingham. */
  function MapCenter(client: Option<Location>, suppliers: seq<Supplier>): (c: (real, real))
    ensures client.Some? ==> c == (client.value.lat, client.value.lng)
    ensures client.None? && suppliers != [] ==> c == (suppliers[0].lat, suppliers[0].lng)
    ensures client.None? && suppliers == [] ==> c == (FallbackLat, FallbackLng)
  {
    match client
    case Some(p) => (p.lat, p.lng)
    case None => if suppliers != [] then (suppliers[0].lat, suppliers[0].lng) else (FallbackLat, FallbackLng)
  }

  // ---------- Geocoder answer ----------

  /** One element of the geocoder's JSON array: `lat` and `lon` as the strings
      the service sends, `display_name` ("" when absent). */
  datatype GeoHit = GeoHit(lat: string, lon: string, displayName: string)
  /** The parsed body: a JSON array of hits, or anything else. */
  datatype GeoBody = HitArray(hits: seq<GeoHit>) | NotAnArray
  datatype GeoResponse = GeoResponse(ok: bool, body: GeoBody)

  /** The checks of `geocodeUK` after the fetch: `None` is its `null`. */
  function AcceptGeocode(parse: Parser, resp: GeoResponse, q: string): (r: Option<Location>)
    ensures r.Some? <==>
      && resp.ok && resp.body.HitArray? && resp.body.hits != []
      && parse(resp.body.hits[0].lat).Some? && parse(resp.body.hits[0].lon).Some?
    ensures r.Some? ==>
      var hit := resp.body.hits[0];
      && r.value.lat == parse(hit.lat).value && r.value.lng == parse(hit.lon).value
      && r.value.caption == (if hit.displayName != "" then hit.displayName else q)
  {
    if !resp.ok then None
    else match resp.body
      case NotAnArray => None
      case HitArray(hits) =>
        if hits == [] then None
        else
          var hit := hits[0];
          var lat := parse(hit.lat);
          var lng := parse(hit.lon);
          if lat.None? || lng.None? then None
          else Some(Location(lat.value, lng.value, if hit.displayName != "" then hit.displayName else q))
  }

  /** Only the first hit matters: whatever follows it cannot change the answer. */
  lemma OnlyFirstHitCounts(parse: Parser, ok: bool, hits: seq<GeoHit>, q: string)
    requires hits != []
    ensures AcceptGeocode(parse, GeoResponse(ok, HitArray(hits)), q)
         == AcceptGeocode(parse, GeoResponse(ok, HitArray([hits[0]])), q)
  {
  }

  // ---------- Call link ----------

  /** The `tel:` link of a supplier card: the phone number without whitespace. */
  function TelHref(phone: string): (r: string)
    ensures 4 <= |r| <= |phone| + 4 && r[..4] == "tel:" && NoWhitespace(r[4..])
    ensures forall i :: 4 <= i < |r| ==> r[i] in phone
  {
    "tel:" + StripWhitespace(phone)
  }

  /** The number's characters reach the link in their order: the link of a
      number split in two is the link of the first part followed by the
      second part, stripped. */
  lemma TelHrefConcat(a: string, b: string)
    ensures TelHref(a + b) == TelHref(a) + StripWhitespace(b)
  {
    StripConcat(a, b);
  }
}
