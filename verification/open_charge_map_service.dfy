/** `OpenChargeMapService` and `OpenChargeMapAPI`: the POI query the app sends
    to Open Charge Map, and the single request a station fetch makes. */
module OpenChargeMapService {
  import opened Wrappers
  import opened Platform
  import opened Text
  import opened Errors
  import opened NetworkClient
  import opened StationModel

  const Base := "https://api.openchargemap.io/v3"
  const PoiPath := Base + "/poi"
  const ApiKey := "946ea481-70b9-40bf-b89f-3f3a84539f58"

  /** The four items every POI query starts with; the result cap reads back
      from its item. */
  function RequiredItems(maxResults: Int64): (items: seq<QueryItem>)
    ensures |items| == 4
    ensures items[0] == QueryItem("key", ApiKey) && items[1] == QueryItem("output", "json")
    ensures items[2].name == "maxresults" && ParseDecimal(items[2].value) == Some(maxResults as int)
    ensures items[3] == QueryItem("verbose", "false")
  {
    DecimalRoundTrip(maxResults);
    [ QueryItem("key", ApiKey),
      QueryItem("output", "json"),
      QueryItem("maxresults", DecimalString(maxResults)),
      QueryItem("verbose", "false") ]
  }

  /** The item for an optional argument: one item when it is given, none otherwise. */
  function OptionalItem(name: string, value: Option<Double>, format: DoubleFormatter): seq<QueryItem> {
    if value.Some? then [QueryItem(name, format(value.value))] else []
  }

  /** Whether the query has an item with this name. */
  predicate HasItem(query: seq<QueryItem>, name: string) {
    exists item :: item in query && item.name == name
  }

  /** The position of an optional parameter among the optional ones. */
  function OptionalRank(name: string): int {
    if name == "latitude" then 0 else if name == "longitude" then 1 else if name == "distance" then 2 else 3
  }

  /** The query items of `poiURL`; `format` is `String(_:)` on a `Double`. */
  function PoiQuery(latitude: Option<Double>, longitude: Option<Double>, distanceKm: Option<Double>,
                    maxResults: Int64, format: DoubleFormatter): (q: seq<QueryItem>)
    ensures |q| >= 4 && q[..4] == RequiredItems(maxResults)
    ensures |q| == 4 + |OptionalItem("latitude", latitude, format)| + |OptionalItem("longitude", longitude, format)|
                     + |OptionalItem("distance", distanceKm, format)|
  {
    RequiredItems(maxResults)
      + OptionalItem("latitude", latitude, format)
      + OptionalItem("longitude", longitude, format)
      + OptionalItem("distance", distanceKm, format)
  }

  /** `poiURL`: starts from the four required items and appends each optional
      one whose argument is given. */
  method PoiUrl(latitude: Option<Double>, longitude: Option<Double>, distanceKm: Option<Double>,
                maxResults: Int64, format: DoubleFormatter) returns (url: Url)
    ensures url == Url(PoiPath, PoiQuery(latitude, longitude, distanceKm, maxResults, format))
  {
    var items := RequiredItems(maxResults);
    if latitude.Some? {
      items := items + [QueryItem("latitude", format(latitude.value))];
    }
    if longitude.Some? {
      items := items + [QueryItem("longitude", format(longitude.value))];
    }
    if distanceKm.Some? {
      items := items + [QueryItem("distance", format(distanceKm.value))];
    }
    url := Url(PoiPath, items);
  }

  /** `fetchStations`: exactly one GET request, for the POI URL, whose outcome
      is handed back unchanged. `client` is the injected network client. */
  method FetchStations(latitude: Option<Double>, longitude: Option<Double>, distanceKm: Option<Double>,
                       maxResults: Int64, format: DoubleFormatter,
                       client: NetworkRequest -> Result<seq<ChargingStation>, AnyError>)
    returns (result: Result<seq<ChargingStation>, AnyError>, sent: seq<NetworkRequest>)
    ensures sent == [NetworkRequest(Url(PoiPath, PoiQuery(latitude, longitude, distanceKm, maxResults, format)), Get, None, None)]
    ensures result == client(sent[0])
  {
    var url := PoiUrl(latitude, longitude, distanceKm, maxResults, format);
    var request := NetworkRequest(url, Get, None, None);
    sent := [request];
    result := client(request);
  }

  // ---- Properties of the query ----

  lemma RequiredNames(maxResults: Int64, name: string)
    requires OptionalRank(name) < 3
    ensures !HasItem(RequiredItems(maxResults), name)
  {
  }

  /** Each optional item is present exactly when its argument is given,
      independently of the other two, and then carries the formatted argument. */
  lemma OptionalItemsPresentIff(latitude: Option<Double>, longitude: Option<Double>, distanceKm: Option<Double>,
                                maxResults: Int64, format: DoubleFormatter)
    ensures var q := PoiQuery(latitude, longitude, distanceKm, maxResults, format);
      && (HasItem(q, "latitude") <==> latitude.Some?)
      && (HasItem(q, "longitude") <==> longitude.Some?)
      && (HasItem(q, "distance") <==> distanceKm.Some?)
      && (latitude.Some? ==> QueryItem("latitude", format(latitude.value)) in q)
      && (longitude.Some? ==> QueryItem("longitude", format(longitude.value)) in q)
      && (distanceKm.Some? ==> QueryItem("distance", format(distanceKm.value)) in q)
  {
    assert "latitude" != "longitude" && "longitude" != "distance" && "distance" != "latitude" by {
      assert |"latitude"| != |"longitude"| && "longitude"[0] != "distance"[0] && "distance"[0] != "latitude"[0];
    }
    QueryNames(latitude, longitude, distanceKm, maxResults, format, "latitude");
    QueryNames(latitude, longitude, distanceKm, maxResults, format, "longitude");
    QueryNames(latitude, longitude, distanceKm, maxResults, format, "distance");
  }

  /** A name that is not a required parameter is in the query exactly when it
      names an optional parameter whose argument is given. */
  lemma QueryNames(latitude: Option<Double>, longitude: Option<Double>, distanceKm: Option<Double>,
                   maxResults: Int64, format: DoubleFormatter, name: string)
    requires OptionalRank(name) < 3
    ensures HasItem(PoiQuery(latitude, longitude, distanceKm, maxResults, format), name) <==>
      (name == "latitude" && latitude.Some?) || (name == "longitude" && longitude.Some?)
      || (name == "distance" && distanceKm.Some?)
  {
    var a, b, c := OptionalItem("latitude", latitude, format), OptionalItem("longitude", longitude, format),
                   OptionalItem("distance", distanceKm, format);
    var r := RequiredItems(maxResults);
    assert PoiQuery(latitude, longitude, distanceKm, maxResults, format) == r + a + b + c;
    RequiredNames(maxResults, name);
    HasItemAppend(r + a + b, c, name);
    HasItemAppend(r + a, b, name);
    HasItemAppend(r, a, name);
    OptionalItemNamed("latitude", latitude, format, name);
    OptionalItemNamed("longitude", longitude, format, name);
    OptionalItemNamed("distance", distanceKm, format, name);
  }

  /** A joined query has an item with a name exactly when one of its parts has. */
  lemma HasItemAppend(x: seq<QueryItem>, y: seq<QueryItem>, name: string)
    ensures HasItem(x + y, name) <==> HasItem(x, name) || HasItem(y, name)
  {
    if HasItem(x + y, name) {
      var item :| item in x + y && item.name == name;
      assert item in x || item in y;
    }
    if HasItem(x, name) || HasItem(y, name) {
      var item :| (item in x || item in y) && item.name == name;
      assert item in x + y;
    }
  }

  /** An optional item carries its own name only, and only when its argument is given. */
  lemma OptionalItemNamed(name: string, value: Option<Double>, format: DoubleFormatter, other: string)
    ensures HasItem(OptionalItem(name, value, format), other) <==> value.Some? && other == name
    ensures value.Some? ==> OptionalItem(name, value, format) == [QueryItem(name, format(value.value))]
  {
    if value.Some? {
      assert QueryItem(name, format(value.value)) in OptionalItem(name, value, format);
    }
  }

  /** The optional items follow the required ones in the order latitude,
      longitude, distance, so no parameter appears twice. */
  lemma OptionalItemsOrdered(latitude: Option<Double>, longitude: Option<Double>, distanceKm: Option<Double>,
                             maxResults: Int64, format: DoubleFormatter)
    ensures var q := PoiQuery(latitude, longitude, distanceKm, maxResults, format);
      && (forall i :: 0 <= i < 4 ==> OptionalRank(q[i].name) == 3)
      && (forall i :: 4 <= i < |q| ==> OptionalRank(q[i].name) < 3)
      && (forall i, j :: 4 <= i < j < |q| ==> OptionalRank(q[i].name) < OptionalRank(q[j].name))
  {
    var q := PoiQuery(latitude, longitude, distanceKm, maxResults, format);
    var a, b, c := OptionalItem("latitude", latitude, format), OptionalItem("longitude", longitude, format),
                   OptionalItem("distance", distanceKm, format);
    assert OptionalRank("latitude") == 0 && OptionalRank("longitude") == 1 && OptionalRank("distance") == 2;
    var tail := a + b + c;
    assert q == RequiredItems(maxResults) + tail;
    SegmentRanks(a, b, c);
    forall i | 4 <= i < |q|
      ensures q[i] == tail[i - 4]
    {
    }
  }

  /** Three segments of at most one item each, ranked 0, 1 and 2: ranks strictly
      increase along their concatenation. */
  lemma SegmentRanks(a: seq<QueryItem>, b: seq<QueryItem>, c: seq<QueryItem>)
    requires |a| <= 1 && |b| <= 1 && |c| <= 1
    requires forall x :: x in a ==> OptionalRank(x.name) == 0
    requires forall x :: x in b ==> OptionalRank(x.name) == 1
    requires forall x :: x in c ==> OptionalRank(x.name) == 2
    ensures var t := a + b + c;
      (forall i :: 0 <= i < |t| ==> OptionalRank(t[i].name) < 3)
      && forall i, j :: 0 <= i < j < |t| ==> OptionalRank(t[i].name) < OptionalRank(t[j].name)
  {
    var t := a + b + c;
    forall i | 0 <= i < |t|
      ensures OptionalRank(t[i].name) == if i < |a| then 0 else if i < |a| + |b| then 1 else 2
    {
      if i < |a| {
        assert t[i] == a[i];
      } else if i < |a| + |b| {
        assert t[i] == b[i - |a|];
      } else {
        assert t[i] == c[i - |a| - |b|];
      }
    }
  }

  /** Without coordinates and radius the query is exactly the four required items. */
  lemma QueryWithoutLocation(maxResults: Int64, format: DoubleFormatter)
    ensures var q := PoiQuery(None, None, None, maxResults, format);
      q == RequiredItems(maxResults) && !HasItem(q, "latitude") && !HasItem(q, "longitude") && !HasItem(q, "distance")
  {
    OptionalItemsPresentIff(None, None, None, maxResults, format);
  }

  /** The `maxresults` value reads back as the requested result cap. */
  lemma MaxResultsReadsBack(latitude: Option<Double>, longitude: Option<Double>, distanceKm: Option<Double>,
                            maxResults: Int64, format: DoubleFormatter)
    ensures var q := PoiQuery(latitude, longitude, distanceKm, maxResults, format);
      q[2].name == "maxresults" && ParseDecimal(q[2].value) == Some(maxResults as int)
  {
    DecimalRoundTrip(maxResults);
  }
}
