/** The CoreData cache row `CDCachedChargingStation` and its mapping from and to
    a `ChargingStation`: a display projection that keeps the station's texts, not
    its address fields or connections. */
module CDCache {
  import opened Wrappers
  import opened Platform
  import opened Text
  import opened StationModel

  /** The attribute values of a row. CoreData's `Double` attributes are not
      optional, so a row always has a latitude and a longitude. */
  datatype CDRow = CDRow(
    id: Int64,
    title: string,
    subtitle: string,
    detailedAddress: string,
    latitude: Double,
    longitude: Double,
    connectorSummary: string,
    lastUpdated: Date)

  /** The row `fromDomain` stores for a station at time `now`: its display texts,
      and its coordinate or (0.0, 0.0) when it has none. */
  function StoredRow(s: ChargingStation, now: Date, cleanString: DoubleFormatter): (r: CDRow)
    ensures r.id == s.id && r.title == Title(s) && r.subtitle == Subtitle(s)
    ensures r.detailedAddress == DetailedAddress(s) && r.connectorSummary == ConnectorSummary(s, cleanString)
    ensures r.lastUpdated == now
    ensures StationCoordinate(s).Some? ==> Coordinate(r.latitude, r.longitude) == StationCoordinate(s).value
    ensures StationCoordinate(s).None? ==> r.latitude == Zero && r.longitude == Zero
  {
    var c := StationCoordinate(s);
    CDRow(s.id, Title(s), Subtitle(s), DetailedAddress(s),
          if c.Some? then c.value.latitude else Zero,
          if c.Some? then c.value.longitude else Zero,
          ConnectorSummary(s, cleanString), now)
  }

  /** The station `toDomain` rebuilds from a row: the title, the detailed address
      as first address line, the subtitle as town, the coordinate; nothing else. */
  function RowToDomain(r: CDRow): (s: ChargingStation)
    ensures s.id == r.id && s.uuid.None? && s.connections.None?
    ensures s.addressInfo.stateOrProvince.None? && s.addressInfo.postcode.None? && s.addressInfo.country.None?
    ensures StationCoordinate(s) == Some(Coordinate(r.latitude, r.longitude))
  {
    ChargingStation(
      r.id, None,
      AddressInfo(None, Some(r.title), Some(r.detailedAddress), None, Some(r.subtitle), None, None,
                  Some(r.latitude), Some(r.longitude), None, None),
      None)
  }

  /** A managed `CDCachedChargingStation` object. */
  class CDCachedChargingStation {
    var id: Int64
    var title: string
    var subtitle: string
    var detailedAddress: string
    var latitude: Double
    var longitude: Double
    var connectorSummary: string
    var lastUpdated: Date

    /** `CDCachedChargingStation(context:)`: a new object whose attributes hold
        the entity's defaults, which the model leaves unspecified. */
    constructor ()
    {
    }

    function Row(): CDRow
      reads this
    {
      CDRow(id, title, subtitle, detailedAddress, latitude, longitude, connectorSummary, lastUpdated)
    }

    /** `toDomain` */
    function ToDomain(): (s: ChargingStation)
      reads this
      ensures s.id == id && s.uuid.None? && s.connections.None?
      ensures s.addressInfo.title == Some(title)
      ensures s.addressInfo.addressLine1 == Some(detailedAddress) && s.addressInfo.town == Some(subtitle)
      ensures StationCoordinate(s) == Some(Coordinate(latitude, longitude))
    {
      RowToDomain(Row())
    }

    /** The attribute assignments of `fromDomain`, one per column. */
    method SetAttributes(row: CDRow)
      modifies this
      ensures Row() == row
    {
      id := row.id;
      title := row.title;
      subtitle := row.subtitle;
      detailedAddress := row.detailedAddress;
      latitude := row.latitude;
      longitude := row.longitude;
      connectorSummary := row.connectorSummary;
      lastUpdated := row.lastUpdated;
    }

    /** `fromDomain`: a new object whose attributes are set one by one from the
        station; `now` is the clock reading `Date()`. */
    static method FromDomain(s: ChargingStation, now: Date, cleanString: DoubleFormatter)
      returns (cached: CDCachedChargingStation)
      ensures fresh(cached)
      ensures cached.Row() == StoredRow(s, now, cleanString)
    {
      cached := new CDCachedChargingStation();
      cached.SetAttributes(StoredRow(s, now, cleanString));
    }
  }

  // ---- What a round trip through the cache keeps and loses ----

  /** A round trip keeps the station's id and title. */
  lemma RoundTripKeepsIdAndTitle(s: ChargingStation, now: Date, cleanString: DoubleFormatter)
    ensures var t := RowToDomain(StoredRow(s, now, cleanString));
      t.id == s.id && Title(t) == Title(s)
  {
  }

  /** A round trip always yields a coordinate: the station's own, or (0.0, 0.0)
      for a station that had none. */
  lemma RoundTripCoordinate(s: ChargingStation, now: Date, cleanString: DoubleFormatter)
    ensures var t := RowToDomain(StoredRow(s, now, cleanString));
      StationCoordinate(t) == Some(StationCoordinate(s).GetOr(Coordinate(Zero, Zero)))
  {
  }

  /** A round trip drops every connection: the rebuilt station's summary is
      "No connector data" whatever the stored summary said. */
  lemma RoundTripLosesConnectors(s: ChargingStation, now: Date, cleanString: DoubleFormatter, otherFormat: DoubleFormatter)
    ensures ConnectorSummary(RowToDomain(StoredRow(s, now, cleanString)), otherFormat) == NoConnectorData
  {
  }

  /** After a round trip the subtitle is the original subtitle, or the original
      detailed address when the subtitle was empty; the detailed address gains
      the subtitle after it. */
  lemma RoundTripTexts(s: ChargingStation, now: Date, cleanString: DoubleFormatter)
    ensures var t := RowToDomain(StoredRow(s, now, cleanString));
      && Subtitle(t) == (if Subtitle(s) != "" then Subtitle(s) else DetailedAddress(s))
      && (DetailedAddress(s) != "" && Subtitle(s) != "" ==>
            DetailedAddress(t) == DetailedAddress(s) + AddressSeparator + Subtitle(s))
  {
    var t := RowToDomain(StoredRow(s, now, cleanString));
    TextsOfCachedShape(t, Subtitle(s), DetailedAddress(s));
  }
}
