/** The SwiftData cache record `SDCachedChargingStation` and its mapping from and
    to a `ChargingStation`. Unlike the CoreData row, its latitude and longitude
    are optional. */
module SDCache {
  import opened Wrappers
  import opened Platform
  import opened Text
  import opened StationModel

  /** `SDCachedChargingStation` */
  datatype SDCachedChargingStation = SDCachedChargingStation(
    id: Int64,
    title: string,
    subtitle: string,
    detailedAddress: string,
    latitude: Option<Double>,
    longitude: Option<Double>,
    connectorSummary: string,
    lastUpdated: Date)

  /** `fromDomain`: the station's display texts and coordinate; `now` is the
      clock reading `Date()`. */
  function FromDomain(s: ChargingStation, now: Date, cleanString: DoubleFormatter): (r: SDCachedChargingStation)
    ensures r.id == s.id && r.title == Title(s) && r.subtitle == Subtitle(s)
    ensures r.detailedAddress == DetailedAddress(s) && r.connectorSummary == ConnectorSummary(s, cleanString)
    ensures r.lastUpdated == now
    ensures r.latitude.Some? <==> StationCoordinate(s).Some?
    ensures r.longitude.Some? <==> StationCoordinate(s).Some?
    ensures r.latitude.Some? && r.longitude.Some? ==>
      Coordinate(r.latitude.value, r.longitude.value) == StationCoordinate(s).value
  {
    var c := StationCoordinate(s);
    SDCachedChargingStation(
      s.id, Title(s), Subtitle(s), DetailedAddress(s),
      if c.Some? then Some(c.value.latitude) else None,
      if c.Some? then Some(c.value.longitude) else None,
      ConnectorSummary(s, cleanString), now)
  }

  /** `toDomain`: the title, the detailed address as first address line, the
      subtitle as town and the stored coordinate; nothing else. */
  function ToDomain(r: SDCachedChargingStation): (s: ChargingStation)
    ensures s.id == r.id && s.uuid.None? && s.connections.None?
    ensures s.addressInfo.addressLine1 == Some(r.detailedAddress) && s.addressInfo.town == Some(r.subtitle)
    ensures s.addressInfo.stateOrProvince.None? && s.addressInfo.postcode.None? && s.addressInfo.country.None?
    ensures s.addressInfo.title == Some(r.title)
    ensures s.addressInfo.latitude == r.latitude && s.addressInfo.longitude == r.longitude
  {
    ChargingStation(
      r.id, None,
      AddressInfo(None, Some(r.title), Some(r.detailedAddress), None, Some(r.subtitle), None, None,
                  r.latitude, r.longitude, None, None),
      None)
  }

  // ---- What a round trip through the cache keeps and loses ----

  /** A round trip keeps the station's id and title. */
  lemma RoundTripKeepsIdAndTitle(s: ChargingStation, now: Date, cleanString: DoubleFormatter)
    ensures var t := ToDomain(FromDomain(s, now, cleanString));
      t.id == s.id && Title(t) == Title(s)
  {
  }

  /** A round trip keeps the coordinate exactly, including its absence. */
  lemma RoundTripKeepsCoordinate(s: ChargingStation, now: Date, cleanString: DoubleFormatter)
    ensures StationCoordinate(ToDomain(FromDomain(s, now, cleanString))) == StationCoordinate(s)
  {
  }

  /** A round trip drops every connection. */
  lemma RoundTripLosesConnectors(s: ChargingStation, now: Date, cleanString: DoubleFormatter, otherFormat: DoubleFormatter)
    ensures ConnectorSummary(ToDomain(FromDomain(s, now, cleanString)), otherFormat) == NoConnectorData
  {
  }

  /** After a round trip the subtitle is the original subtitle, or the original
      detailed address when the subtitle was empty; the detailed address gains
      the subtitle after it. */
  lemma RoundTripTexts(s: ChargingStation, now: Date, cleanString: DoubleFormatter)
    ensures var t := ToDomain(FromDomain(s, now, cleanString));
      && Subtitle(t) == (if Subtitle(s) != "" then Subtitle(s) else DetailedAddress(s))
      && (DetailedAddress(s) != "" && Subtitle(s) != "" ==>
            DetailedAddress(t) == DetailedAddress(s) + AddressSeparator + Subtitle(s))
  {
    var t := ToDomain(FromDomain(s, now, cleanString));
    TextsOfCachedShape(t, Subtitle(s), DetailedAddress(s));
  }
}
