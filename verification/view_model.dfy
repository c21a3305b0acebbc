/** `ChargingStationsViewModel`: the screen state behind the station list and
    one fetch attempt. The attempt is specified by the function `Attempt` on
    a snapshot of that state; the class performs it step by step. The network
    reachability, the location provider and the service are the attempt's
    inputs: what the provider answers and what the service returns for a
    query. */
module ChargingStationsViewModel {
  import opened Wrappers
  import opened Platform
  import opened Errors
  import opened StationModel

  const NoInternet := "No internet connection."
  const NoStationsNearby := "No stations found nearby."
  const DefaultMaxResults: Int64 := 100

  /** The arguments of one `fetchStations` call on the service. */
  datatype ServiceQuery = ServiceQuery(latitude: Option<Double>, longitude: Option<Double>,
                                       distanceKm: Option<Double>, maxResults: Int64)

  /** What an attempt asks of its collaborators, in order. */
  datatype Interaction = LocationRequested | ServiceCalled(query: ServiceQuery)

  type Fetched = Result<seq<ChargingStation>, AnyError>

  /** The published properties. */
  datatype Screen = Screen(chargingStations: seq<ChargingStation>, isLoading: bool,
                           errorMessage: Option<string>, isOffline: bool,
                           showRetryWithoutLocation: bool, selectedStation: Option<ChargingStation>)

  /** What the screen shows between attempts: nothing is loading; the retry
      button comes only with the "nearby" message and an empty list; the offline
      flag only with the "no internet" message. */
  predicate ScreenValid(s: Screen) {
    && !s.isLoading
    && (s.showRetryWithoutLocation ==>
          s.errorMessage == Some(NoStationsNearby) && s.chargingStations == [] && !s.isOffline)
    && (s.isOffline ==> s.errorMessage == Some(NoInternet) && !s.showRetryWithoutLocation)
  }

  /** The query of an online attempt: centred on the device only when a
      location was asked for and obtained; a failed location falls back to the
      generic query. The distance is always passed. */
  function OnlineQuery(useLocation: bool, location: Result<Coordinate, AnyError>,
                       distance: Double, results: Int64): (q: ServiceQuery)
    ensures q.distanceKm == Some(distance) && q.maxResults == results
    ensures q.latitude.Some? <==> useLocation && location.Success?
    ensures q.longitude.Some? <==> q.latitude.Some?
    ensures q.latitude.Some? ==>
      q.latitude.value == location.value.latitude && q.longitude.value == location.value.longitude
  {
    if useLocation && location.Success? then
      ServiceQuery(Some(location.value.latitude), Some(location.value.longitude), Some(distance), results)
    else
      ServiceQuery(None, None, Some(distance), results)
  }

  /** The collaborators an attempt calls: none when offline; otherwise the
      location provider when a location is wanted, then the service once. */
  function AttemptLog(useLocation: bool, connected: bool, location: Result<Coordinate, AnyError>,
                      distance: Double, results: Int64): (log: seq<Interaction>)
    ensures !connected <==> log == []
    ensures connected ==> log[|log| - 1] == ServiceCalled(OnlineQuery(useLocation, location, distance, results))
    ensures connected ==> |log| == (if useLocation then 2 else 1)
    ensures forall i :: 0 <= i < |log| - 1 ==> log[i] == LocationRequested
  {
    if !connected then []
    else (if useLocation then [LocationRequested] else [])
         + [ServiceCalled(OnlineQuery(useLocation, location, distance, results))]
  }

  /** The screen after one attempt of `fetchChargingStations(useLocation:)`. */
  function Attempt(s: Screen, useLocation: bool, connected: bool, location: Result<Coordinate, AnyError>,
                   service: ServiceQuery -> Fetched, distance: Double, results: Int64): (r: Screen)
    ensures ScreenValid(r)
    ensures r.selectedStation == s.selectedStation
    ensures r.isOffline <==> !connected
  {
    if !connected then
      s.(isLoading := false, errorMessage := Some(NoInternet), isOffline := true, showRetryWithoutLocation := false)
    else
      match service(OnlineQuery(useLocation, location, distance, results))
      case Success(fetched) =>
        if useLocation && fetched == [] then
          Screen(fetched, false, Some(NoStationsNearby), false, true, s.selectedStation)
        else
          Screen(fetched, false, None, false, false, s.selectedStation)
      case Failure(e) =>
        Screen([], false, Some(LocalizedDescription(e)), false, false, s.selectedStation)
  }

  /** The first station with the given id, as `first(where:)` finds it. */
  function FirstWithId(stations: seq<ChargingStation>, id: Int64): (r: Option<ChargingStation>)
    ensures r.None? <==> forall s :: s in stations ==> s.id != id
    ensures r.Some? ==> exists i :: 0 <= i < |stations| && stations[i] == r.value && r.value.id == id &&
                                    forall j :: 0 <= j < i ==> stations[j].id != id
  {
    if stations == [] then None
    else if stations[0].id == id then Some(stations[0])
    else
      var r := FirstWithId(stations[1..], id);
      assert r.Some? ==> exists i :: 1 <= i < |stations| && stations[i] == r.value && r.value.id == id &&
                                     forall j :: 0 <= j < i ==> stations[j].id != id by {
        if r.Some? {
          var i :| 0 <= i < |stations[1..]| && stations[1..][i] == r.value && r.value.id == id &&
                   forall j :: 0 <= j < i ==> stations[1..][j].id != id;
          assert stations[i + 1] == r.value;
          assert forall j :: 0 <= j < i + 1 ==> stations[j].id != id by {
            forall j | 0 <= j < i + 1 ensures stations[j].id != id {
              if j > 0 { assert stations[j] == stations[1..][j - 1]; }
            }
          }
        }
      }
      r
  }

  class ChargingStationsViewModel {
    var chargingStations: seq<ChargingStation>
    var isLoading: bool
    var errorMessage: Option<string>
    var isOffline: bool
    var showRetryWithoutLocation: bool
    var selectedStation: Option<ChargingStation>
    var defaultDistanceKm: Double
    var defaultMaxResults: Int64

    function Snapshot(): Screen
      reads this
    {
      Screen(chargingStations, isLoading, errorMessage, isOffline, showRetryWithoutLocation, selectedStation)
    }

    ghost predicate Valid()
      reads this
    {
      ScreenValid(Snapshot())
    }

    /** `init(service:locationProvider:)`: an empty screen with the default
        search radius of 20 km and at most 100 results. */
    constructor ()
      ensures Valid()
      ensures Snapshot() == Screen([], false, None, false, false, None)
      ensures defaultDistanceKm == Twenty && defaultMaxResults == DefaultMaxResults
    {
      chargingStations := [];
      isLoading := false;
      errorMessage := None;
      isOffline := false;
      showRetryWithoutLocation := false;
      selectedStation := None;
      defaultDistanceKm := Twenty;
      defaultMaxResults := DefaultMaxResults;
    }

    /** `fetchChargingStations(useLocation:)`, run to completion. */
    method FetchChargingStations(useLocation: bool, connected: bool, location: Result<Coordinate, AnyError>,
                                 service: ServiceQuery -> Fetched)
      returns (log: seq<Interaction>)
      modifies this
      ensures Valid()
      ensures Snapshot() == Attempt(old(Snapshot()), useLocation, connected, location, service,
                                    old(defaultDistanceKm), old(defaultMaxResults))
      ensures log == AttemptLog(useLocation, connected, location, old(defaultDistanceKm), old(defaultMaxResults))
      ensures defaultDistanceKm == old(defaultDistanceKm) && defaultMaxResults == old(defaultMaxResults)
    {
      isLoading := true;
      errorMessage := None;
      isOffline := false;
      showRetryWithoutLocation := false;

      if !connected {
        errorMessage := Some(NoInternet);
        isLoading := false;
        isOffline := true;
        return [];
      }

      log := PerformOnlineFetch(useLocation, defaultDistanceKm, defaultMaxResults, location, service);

      if useLocation && chargingStations == [] && errorMessage == None {
        errorMessage := Some(NoStationsNearby);
        showRetryWithoutLocation := true;
      }

      isLoading := false;
    }

    /** `retryWithoutLocation()`: clears the message and the retry button, then
        fetches without asking for a location. */
    method RetryWithoutLocation(connected: bool, location: Result<Coordinate, AnyError>,
                                service: ServiceQuery -> Fetched)
      returns (log: seq<Interaction>)
      modifies this
      ensures Valid()
      ensures Snapshot() == Attempt(old(Snapshot()), false, connected, location, service,
                                    old(defaultDistanceKm), old(defaultMaxResults))
      ensures log == AttemptLog(false, connected, location, old(defaultDistanceKm), old(defaultMaxResults))
      ensures defaultDistanceKm == old(defaultDistanceKm) && defaultMaxResults == old(defaultMaxResults)
    {
      errorMessage := None;
      showRetryWithoutLocation := false;
      log := FetchChargingStations(false, connected, location, service);
    }

    /** `performOnlineFetch(useLocation:distance:results:)`: asks the provider
        for a location when one is wanted, falling back to the generic query when
        it fails, and fetches once. */
    method PerformOnlineFetch(useLocation: bool, distance: Double, results: Int64,
                              location: Result<Coordinate, AnyError>, service: ServiceQuery -> Fetched)
      returns (log: seq<Interaction>)
      modifies this
      ensures log == AttemptLog(useLocation, true, location, distance, results)
      ensures GotStations(OnlineQuery(useLocation, location, distance, results), service)
    {
      if useLocation {
        if location.Success? {
          var coordinate := location.value;
          log := GetChargingStations(Some(coordinate.latitude), Some(coordinate.longitude), distance, results, service);
        } else {
          log := GetChargingStations(None, None, distance, results, service);
        }
        log := [LocationRequested] + log;
      } else {
        log := GetChargingStations(None, None, distance, results, service);
      }
    }

    /** The state `getChargingStations` leaves for query `q`: the fetched
        stations with the message cleared, or an empty list with the error's
        description. */
    twostate predicate GotStations(q: ServiceQuery, service: ServiceQuery -> Fetched)
      reads this
    {
      && isLoading == old(isLoading) && !showRetryWithoutLocation
      && selectedStation == old(selectedStation)
      && defaultDistanceKm == old(defaultDistanceKm) && defaultMaxResults == old(defaultMaxResults)
      && match service(q)
         case Success(fetched) => chargingStations == fetched && errorMessage == None && !isOffline
         case Failure(e) =>
           chargingStations == [] && errorMessage == Some(LocalizedDescription(e)) && isOffline == old(isOffline)
    }

    /** `getChargingStations(latitude:longitude:distance:results:)`. */
    method GetChargingStations(latitude: Option<Double>, longitude: Option<Double>, distance: Double, results: Int64,
                               service: ServiceQuery -> Fetched)
      returns (log: seq<Interaction>)
      modifies this
      ensures log == [ServiceCalled(ServiceQuery(latitude, longitude, Some(distance), results))]
      ensures GotStations(ServiceQuery(latitude, longitude, Some(distance), results), service)
    {
      var q := ServiceQuery(latitude, longitude, Some(distance), results);
      log := [ServiceCalled(q)];
      match service(q)
      case Success(fetched) =>
        chargingStations := fetched;
        isOffline := false;
        errorMessage := None;
        showRetryWithoutLocation := false;
      case Failure(e) =>
        chargingStations := [];
        errorMessage := Some(LocalizedDescription(e));
        showRetryWithoutLocation := false;
    }

    /** `selectStation(_:)` */
    method SelectStation(station: Option<ChargingStation>)
      modifies this
      ensures Snapshot() == old(Snapshot()).(selectedStation := station)
      ensures defaultDistanceKm == old(defaultDistanceKm) && defaultMaxResults == old(defaultMaxResults)
    {
      selectedStation := station;
    }

    /** `station(withID:)`: a listed station with that id, when there is one. */
    function StationWithId(id: Int64): (r: Option<ChargingStation>)
      reads this
      ensures r.None? <==> forall s :: s in chargingStations ==> s.id != id
      ensures r.Some? ==> r.value in chargingStations && r.value.id == id
      ensures r.Some? ==> exists i :: 0 <= i < |chargingStations| && chargingStations[i] == r.value &&
                                      forall j :: 0 <= j < i ==> chargingStations[j].id != id
    {
      FirstWithId(chargingStations, id)
    }
  }

  // ---- Properties of an attempt ----

  /** The retry-without-location button is offered exactly when an online,
      location-based attempt got an empty list back from the service. */
  lemma RetryOfferedIff(s: Screen, useLocation: bool, connected: bool, location: Result<Coordinate, AnyError>,
                        service: ServiceQuery -> Fetched, distance: Double, results: Int64)
    ensures Attempt(s, useLocation, connected, location, service, distance, results).showRetryWithoutLocation
            <==> connected && useLocation && service(OnlineQuery(useLocation, location, distance, results)) == Success([])
  {
  }

  /** No message is shown exactly when the service answered and the answer is
      not an empty list for a location-based attempt. */
  lemma NoMessageIff(s: Screen, useLocation: bool, connected: bool, location: Result<Coordinate, AnyError>,
                     service: ServiceQuery -> Fetched, distance: Double, results: Int64)
    ensures var q := OnlineQuery(useLocation, location, distance, results);
            Attempt(s, useLocation, connected, location, service, distance, results).errorMessage.None?
            <==> connected && service(q).Success? && !(useLocation && service(q).value == [])
  {
  }

  /** Online, the list is exactly what the service returned, or empty with the
      error's description when it failed: there is no cache fallback. */
  lemma OnlineListIsServiceAnswer(s: Screen, useLocation: bool, location: Result<Coordinate, AnyError>,
                                  service: ServiceQuery -> Fetched, distance: Double, results: Int64)
    ensures var r := Attempt(s, useLocation, true, location, service, distance, results);
            match service(OnlineQuery(useLocation, location, distance, results))
            case Success(fetched) => r.chargingStations == fetched
            case Failure(e) => r.chargingStations == [] && r.errorMessage == Some(LocalizedDescription(e))
  {
  }

  /** Offline, the previous list stays on screen. */
  lemma OfflineKeepsList(s: Screen, useLocation: bool, location: Result<Coordinate, AnyError>,
                         service: ServiceQuery -> Fetched, distance: Double, results: Int64)
    ensures Attempt(s, useLocation, false, location, service, distance, results).chargingStations == s.chargingStations
  {
  }

  /** An attempt depends on the previous screen only through its list (kept when
      offline) and the selection: messages and flags are always recomputed. */
  lemma AttemptForgetsPreviousMessages(s1: Screen, s2: Screen, useLocation: bool, connected: bool,
                                       location: Result<Coordinate, AnyError>, service: ServiceQuery -> Fetched,
                                       distance: Double, results: Int64)
    requires s1.chargingStations == s2.chargingStations && s1.selectedStation == s2.selectedStation
    ensures Attempt(s1, useLocation, connected, location, service, distance, results)
         == Attempt(s2, useLocation, connected, location, service, distance, results)
  {
  }

  /** A failed location costs nothing but the question: the query, and so the
      list, are those of the generic fetch. */
  lemma FailedLocationFallsBack(e: AnyError, other: Result<Coordinate, AnyError>, distance: Double, results: Int64)
    ensures OnlineQuery(true, Failure(e), distance, results) == OnlineQuery(false, other, distance, results)
    ensures AttemptLog(true, true, Failure(e), distance, results)
         == [LocationRequested] + AttemptLog(false, true, other, distance, results)
  {
  }

  /** A location error never reaches the screen: which error the provider
      raised makes no difference to the attempt. */
  lemma LocationErrorNeverShown(s: Screen, connected: bool, e1: AnyError, e2: AnyError,
                                service: ServiceQuery -> Fetched, distance: Double, results: Int64)
    ensures Attempt(s, true, connected, Failure(e1), service, distance, results)
         == Attempt(s, true, connected, Failure(e2), service, distance, results)
  {
  }

  /** A generic fetch (as the retry makes) never offers the retry again. */
  lemma GenericFetchOffersNoRetry(s: Screen, connected: bool, location: Result<Coordinate, AnyError>,
                                  service: ServiceQuery -> Fetched, distance: Double, results: Int64)
    ensures !Attempt(s, false, connected, location, service, distance, results).showRetryWithoutLocation
  {
  }

  /** Looking a station up in two lists one after the other finds it in the
      first when it is there, and otherwise in the second. */
  lemma {:induction false} FirstWithIdOfAppend(a: seq<ChargingStation>, b: seq<ChargingStation>, id: Int64)
    ensures FirstWithId(a + b, id) == if FirstWithId(a, id).Some? then FirstWithId(a, id) else FirstWithId(b, id)
  {
    if a != [] {
      assert (a + b)[1..] == a[1..] + b;
      FirstWithIdOfAppend(a[1..], b, id);
    } else {
      assert a + b == b;
    }
  }
}
