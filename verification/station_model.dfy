/** The charging-station records decoded from the Open Charge Map response, and
    the texts and coordinate the app derives from a station for display. */
module StationModel {
  import opened Wrappers
  import opened Platform
  import opened Text

  /** `Country` */
  datatype Country = Country(id: Option<Int64>, title: Option<string>, isoCode: Option<string>)

  /** The (id, title) pairs `ConnectionType`, `CurrentType` and `StatusType`. */
  datatype TitledType = TitledType(id: Option<Int64>, title: Option<string>)

  /** `Connection` */
  datatype Connection = Connection(
    id: Option<Int64>,
    powerKW: Option<Double>,
    quantity: Option<Int64>,
    comments: Option<string>,
    connectionType: Option<TitledType>,
    currentType: Option<TitledType>,
    statusType: Option<TitledType>)

  /** `AddressInfo` */
  datatype AddressInfo = AddressInfo(
    id: Option<Int64>,
    title: Option<string>,
    addressLine1: Option<string>,
    addressLine2: Option<string>,
    town: Option<string>,
    stateOrProvince: Option<string>,
    postcode: Option<string>,
    latitude: Option<Double>,
    longitude: Option<Double>,
    accessComments: Option<string>,
    country: Option<Country>)

  /** `ChargingStation` */
  datatype ChargingStation = ChargingStation(
    id: Int64,
    uuid: Option<string>,
    addressInfo: AddressInfo,
    connections: Option<seq<Connection>>)

  const UnknownLocation := "Unknown location"
  const NoConnectorData := "No connector data"
  const AddressSeparator := ", "
  /** Between the fields of one connection's label. */
  const FieldSeparator := " • "
  /** Between the labels of two connections. */
  const ConnectionSeparator := " — "

  /** An optional text that is present and not empty. */
  predicate Filled(o: Option<string>) {
    o.Some? && o.value != ""
  }

  /** The filled candidates, in order: the conditional appends of `subtitle` and
      `detailedAddress`. */
  function FilledValues(candidates: seq<Option<string>>): (parts: seq<string>)
    ensures |parts| <= |candidates|
    ensures forall p :: p in parts ==> p != ""
    ensures parts == [] <==> forall c :: c in candidates ==> !Filled(c)
    ensures forall c :: c in candidates && Filled(c) ==> c.value in parts
    ensures forall p :: p in parts ==> Some(p) in candidates
  {
    if candidates == [] then []
    else
      var rest := FilledValues(candidates[1..]);
      assert forall c :: c in candidates ==> c == candidates[0] || c in candidates[1..];
      if Filled(candidates[0]) then [candidates[0].value] + rest else rest
  }

  /** Filtering keeps the candidates' order: the parts of a concatenation are the
      parts of the first list followed by those of the second. */
  lemma {:induction false} FilledValuesAppend(a: seq<Option<string>>, b: seq<Option<string>>)
    ensures FilledValues(a + b) == FilledValues(a) + FilledValues(b)
  {
    if a == [] {
      assert a + b == b;
    } else {
      assert (a + b)[0] == a[0];
      assert (a + b)[1..] == a[1..] + b;
      FilledValuesAppend(a[1..], b);
      if Filled(a[0]) {
        ConcatAssociative([a[0].value], FilledValues(a[1..]), FilledValues(b));
      }
    }
  }

  /** What one candidate contributes to a connection's label: its value when present. */
  function Present(o: Option<string>): seq<string> {
    if o.Some? then [o.value] else []
  }

  /** The present values, in order, empty ones included: the appends of a connection's label. */
  function PresentValues(candidates: seq<Option<string>>): (parts: seq<string>)
    ensures |parts| <= |candidates|
    ensures parts == [] <==> forall c :: c in candidates ==> c.None?
    ensures forall c :: c in candidates && c.Some? ==> c.value in parts
    ensures forall p :: p in parts ==> Some(p) in candidates
  {
    if candidates == [] then []
    else
      var rest := PresentValues(candidates[1..]);
      assert forall c :: c in candidates ==> c == candidates[0] || c in candidates[1..];
      assert candidates[0] in candidates;
      Present(candidates[0]) + rest
  }

  /** The present values of a concatenation are those of the first list followed
      by those of the second. */
  lemma {:induction false} PresentValuesAppend(a: seq<Option<string>>, b: seq<Option<string>>)
    ensures PresentValues(a + b) == PresentValues(a) + PresentValues(b)
  {
    if a == [] {
      assert a + b == b;
    } else {
      assert (a + b)[0] == a[0];
      assert (a + b)[1..] == a[1..] + b;
      PresentValuesAppend(a[1..], b);
      ConcatAssociative(Present(a[0]), PresentValues(a[1..]), PresentValues(b));
    }
  }

  /** `title`: the address title when there is one, even an empty one. */
  function Title(s: ChargingStation): (r: string)
    ensures s.addressInfo.title.Some? ==> r == s.addressInfo.title.value
    ensures s.addressInfo.title.None? ==> r == UnknownLocation
  {
    s.addressInfo.title.GetOr(UnknownLocation)
  }

  /** The components of `subtitle`: town, state and postcode when any is filled,
      otherwise the first address line. */
  function SubtitleParts(a: AddressInfo): (parts: seq<string>)
    ensures forall p :: p in parts ==> p != ""
    ensures parts == [] <==> !Filled(a.town) && !Filled(a.stateOrProvince) && !Filled(a.postcode) && !Filled(a.addressLine1)
    ensures Filled(a.town) || Filled(a.stateOrProvince) || Filled(a.postcode) ==>
      parts == FilledValues([a.town, a.stateOrProvince, a.postcode])
    ensures !Filled(a.town) && !Filled(a.stateOrProvince) && !Filled(a.postcode) && Filled(a.addressLine1) ==>
      parts == [a.addressLine1.value]
  {
    var main := FilledValues([a.town, a.stateOrProvince, a.postcode]);
    if main == [] then FilledValues([a.addressLine1]) else main
  }

  /** `subtitle`: begins with the town when that is filled; is the first address
      line alone when town, state and postcode are all missing or empty. */
  function Subtitle(s: ChargingStation): (r: string)
    ensures Filled(s.addressInfo.town) ==> s.addressInfo.town.value <= r
    ensures var a := s.addressInfo;
      !Filled(a.town) && !Filled(a.stateOrProvince) && !Filled(a.postcode) && Filled(a.addressLine1) ==>
        r == a.addressLine1.value
  {
    Join(SubtitleParts(s.addressInfo), AddressSeparator)
  }

  /** The country title, when there is a country that has one. */
  function CountryTitle(a: AddressInfo): Option<string> {
    if a.country.Some? then a.country.value.title else None
  }

  /** The components of `detailedAddress`. */
  function DetailedParts(a: AddressInfo): seq<string> {
    FilledValues([a.addressLine1, a.addressLine2, a.town, a.stateOrProvince, a.postcode, CountryTitle(a)])
  }

  /** `detailedAddress`: begins with the first address line when that is filled. */
  function DetailedAddress(s: ChargingStation): (r: string)
    ensures Filled(s.addressInfo.addressLine1) ==> s.addressInfo.addressLine1.value <= r
  {
    Join(DetailedParts(s.addressInfo), AddressSeparator)
  }

  /** `coordinate`: present exactly when both latitude and longitude are. */
  function StationCoordinate(s: ChargingStation): (r: Option<Coordinate>)
    ensures r.Some? <==> s.addressInfo.latitude.Some? && s.addressInfo.longitude.Some?
    ensures r.Some? ==> r.value.latitude == s.addressInfo.latitude.value && r.value.longitude == s.addressInfo.longitude.value
  {
    if s.addressInfo.latitude.Some? && s.addressInfo.longitude.Some? then
      Some(Coordinate(s.addressInfo.latitude.value, s.addressInfo.longitude.value))
    else None
  }

  /** The connector type's title, when there is a type that has one. */
  function TypeTitle(c: Connection): Option<string> {
    if c.connectionType.Some? then c.connectionType.value.title else None
  }

  /** The line one connection contributes to `connectorSummary`: type title, power
      and quantity, each when present, in that order. `cleanString` renders the power. */
  function ConnectionLabel(c: Connection, cleanString: DoubleFormatter): (r: string)
    ensures TypeTitle(c).Some? ==> TypeTitle(c).value <= r
    ensures TypeTitle(c).None? && c.powerKW.Some? ==> cleanString(c.powerKW.value) + " kW" <= r
    ensures TypeTitle(c).None? && c.powerKW.None? && c.quantity.None? ==> r == ""
  {
    var fields := LabelFields(c, cleanString);
    PresentValuesCons(fields[0], fields[1..]);
    PresentValuesCons(fields[1], fields[2..]);
    assert fields == [fields[0]] + fields[1..];
    assert fields[1..] == [fields[1]] + fields[2..];
    Join(PresentValues(fields), FieldSeparator)
  }

  /** The candidate fields of a connection's label: type title, power, quantity. */
  function LabelFields(c: Connection, cleanString: DoubleFormatter): seq<Option<string>> {
    [ TypeTitle(c),
      if c.powerKW.Some? then Some(cleanString(c.powerKW.value) + " kW") else None,
      if c.quantity.Some? then Some(DecimalString(c.quantity.value) + "x") else None ]
  }

  function Min(a: int, b: int): int {
    if a < b then a else b
  }

  /** `connectorSummary`: the labels of at most the first two connections. */
  function ConnectorSummary(s: ChargingStation, cleanString: DoubleFormatter): (r: string)
    ensures s.connections.None? || s.connections.value == [] ==> r == NoConnectorData
  {
    if s.connections.None? || s.connections.value == [] then NoConnectorData
    else
      var shown := s.connections.value[..Min(2, |s.connections.value|)];
      Join(seq(|shown|, i requires 0 <= i < |shown| => ConnectionLabel(shown[i], cleanString)), ConnectionSeparator)
  }

  // ---- Properties of the display texts ----

  /** `subtitle` never shows an empty component, and it is empty exactly when
      town, state, postcode and first address line are all missing or empty. */
  lemma SubtitleEmptyIff(s: ChargingStation)
    ensures var a := s.addressInfo;
      Subtitle(s) == "" <==> !Filled(a.town) && !Filled(a.stateOrProvince) && !Filled(a.postcode) && !Filled(a.addressLine1)
  {
    JoinEmptyIff(SubtitleParts(s.addressInfo), AddressSeparator);
  }

  /** With exactly one filled component the subtitle is that component. */
  lemma SubtitleSingle(s: ChargingStation)
    requires var a := s.addressInfo; !Filled(a.stateOrProvince) && !Filled(a.postcode) && (Filled(a.town) || !Filled(a.addressLine1))
    ensures Subtitle(s) == s.addressInfo.town.GetOr("")
  {
    var a := s.addressInfo;
    if Filled(a.town) {
      assert FilledValues([a.town, a.stateOrProvince, a.postcode]) == [a.town.value];
    }
  }

  /** `detailedAddress` never shows an empty component, and it is empty exactly
      when all six candidates are missing or empty. */
  lemma DetailedAddressEmptyIff(s: ChargingStation)
    ensures var a := s.addressInfo;
      DetailedAddress(s) == "" <==>
        !Filled(a.addressLine1) && !Filled(a.addressLine2) && !Filled(a.town) &&
        !Filled(a.stateOrProvince) && !Filled(a.postcode) && !Filled(CountryTitle(a))
  {
    var a := s.addressInfo;
    var c := [a.addressLine1, a.addressLine2, a.town, a.stateOrProvince, a.postcode, CountryTitle(a)];
    JoinEmptyIff(FilledValues(c), AddressSeparator);
  }

  /** The components of `detailedAddress` are the filled address lines, followed
      by the filled town, state and postcode (which `subtitle` uses), followed by
      the filled country title. */
  lemma DetailedPartsOrder(a: AddressInfo)
    ensures DetailedParts(a) ==
      FilledValues([a.addressLine1, a.addressLine2]) +
      FilledValues([a.town, a.stateOrProvince, a.postcode]) +
      FilledValues([CountryTitle(a)])
  {
    var lines, place, country := [a.addressLine1, a.addressLine2], [a.town, a.stateOrProvince, a.postcode], [CountryTitle(a)];
    assert lines + place + country == [a.addressLine1, a.addressLine2, a.town, a.stateOrProvince, a.postcode, CountryTitle(a)];
    FilledValuesAppend(lines + place, country);
    FilledValuesAppend(lines, place);
  }

  /** The filled values of a list: those of its head, then those of its tail. */
  lemma FilledValuesCons(head: Option<string>, tail: seq<Option<string>>)
    ensures FilledValues([head] + tail) == (if Filled(head) then [head.value] else []) + FilledValues(tail)
  {
    assert ([head] + tail)[0] == head;
    assert ([head] + tail)[1..] == tail;
  }

  /** The texts of a station rebuilt from a cache row, whose address holds only a
      title, the cached detailed address as first line and the cached subtitle as
      town: its subtitle is the cached subtitle, or the cached detailed address
      when that is empty; its detailed address repeats both. */
  lemma TextsOfCachedShape(t: ChargingStation, subtitle: string, detailed: string)
    requires var a := t.addressInfo;
      && a.addressLine1 == Some(detailed) && a.town == Some(subtitle)
      && a.addressLine2.None? && a.stateOrProvince.None? && a.postcode.None? && a.country.None?
    ensures Subtitle(t) == if subtitle != "" then subtitle else detailed
    ensures DetailedAddress(t) == Join(FilledValues([Some(detailed), Some(subtitle)]), AddressSeparator)
  {
    var a := t.addressInfo;
    var sub, det := Some(subtitle), Some(detailed);
    var none: Option<string> := None;
    FilledValuesCons(sub, [none, none]);
    assert [a.town, a.stateOrProvince, a.postcode] == [sub] + [none, none];
    FilledValuesCons(det, []);
    assert [a.addressLine1] == [det] + [];
    DetailedOfCachedShape(a, subtitle, detailed);
  }

  lemma DetailedOfCachedShape(a: AddressInfo, subtitle: string, detailed: string)
    requires && a.addressLine1 == Some(detailed) && a.town == Some(subtitle)
             && a.addressLine2.None? && a.stateOrProvince.None? && a.postcode.None? && a.country.None?
    ensures DetailedParts(a) == FilledValues([Some(detailed), Some(subtitle)])
  {
    var none: Option<string> := None;
    assert [a.addressLine1, a.addressLine2, a.town, a.stateOrProvince, a.postcode, CountryTitle(a)]
        == [Some(detailed), none, Some(subtitle), none, none, none];
    FilledSkipsMissing(detailed, subtitle);
  }

  /** Missing candidates contribute nothing: a first line and a town with
      everything else missing give the same parts as the two alone. */
  lemma FilledSkipsMissing(line: string, town: string)
    ensures FilledValues([Some(line), None, Some(town), None, None, None]) == FilledValues([Some(line), Some(town)])
  {
    var sub, det := Some(town), Some(line);
    var none: Option<string> := None;
    var all := [det, none, sub, none, none, none];
    var rest := all[3..];
    assert FilledValues(rest) == [] by {
      assert rest[1..][1..][1..] == [];
    }
    FilledValuesCons(sub, rest);
    assert all[2..] == [sub] + rest;
    FilledValuesCons(sub, []);
    assert FilledValues(all[2..]) == FilledValues([sub]);
    FilledValuesCons(none, all[2..]);
    assert all[1..] == [none] + all[2..];
    FilledValuesCons(det, all[1..]);
    assert all == [det] + all[1..];
    FilledValuesCons(det, [sub]);
    assert [det, sub] == [det] + [sub];
  }

  /** With connections, the summary is the first connection's label, followed by
      " — " and the second's when there is a second; later connections are ignored. */
  lemma ConnectorSummaryFirstTwo(s: ChargingStation, cleanString: DoubleFormatter)
    requires s.connections.Some? && s.connections.value != []
    ensures var cs := s.connections.value;
      ConnectorSummary(s, cleanString) ==
        if |cs| == 1 then ConnectionLabel(cs[0], cleanString)
        else ConnectionLabel(cs[0], cleanString) + ConnectionSeparator + ConnectionLabel(cs[1], cleanString)
  {
    var cs := s.connections.value;
    var shown := cs[..Min(2, |cs|)];
    var labels := seq(|shown|, i requires 0 <= i < |shown| => ConnectionLabel(shown[i], cleanString));
    if |cs| > 1 {
      assert labels[1..] == [ConnectionLabel(cs[1], cleanString)];
    }
  }

  /** The present values of a list: its head's value when present, then those of its tail. */
  lemma PresentValuesCons(head: Option<string>, tail: seq<Option<string>>)
    ensures PresentValues([head] + tail) == Present(head) + PresentValues(tail)
  {
    assert ([head] + tail)[0] == head;
    assert ([head] + tail)[1..] == tail;
  }

  /** A connection's label joins, in this order, its type title, its power and its
      quantity, each only when present. */
  lemma ConnectionLabelOrder(c: Connection, cleanString: DoubleFormatter)
    ensures var fs := LabelFields(c, cleanString);
      ConnectionLabel(c, cleanString) == Join(Present(fs[0]) + Present(fs[1]) + Present(fs[2]), FieldSeparator)
  {
    var fs := LabelFields(c, cleanString);
    assert fs == [fs[0], fs[1], fs[2]];
    PresentValuesOfThree(fs[0], fs[1], fs[2]);
  }

  /** Three candidates contribute their values in order, each only when present. */
  lemma PresentValuesOfThree(x: Option<string>, y: Option<string>, z: Option<string>)
    ensures PresentValues([x, y, z]) == Present(x) + Present(y) + Present(z)
  {
    assert [x, y, z] == [x] + [y, z] && [y, z] == [y] + [z] && [z] == [z] + [];
    PresentValuesCons(x, [y, z]);
    PresentValuesCons(y, [z]);
    PresentValuesCons(z, []);
    ConcatAssociative(Present(x), Present(y), Present(z));
  }

  /** Concatenation of lists of parts is associative. */
  lemma ConcatAssociative(p: seq<string>, q: seq<string>, r: seq<string>)
    ensures p + (q + r) == p + q + r
  {
  }

  /** A connection with type title, power and quantity is labelled with all three. */
  lemma ConnectionLabelAllFields(c: Connection, cleanString: DoubleFormatter)
    requires TypeTitle(c).Some? && c.powerKW.Some? && c.quantity.Some?
    ensures ConnectionLabel(c, cleanString) ==
      TypeTitle(c).value + FieldSeparator + (cleanString(c.powerKW.value) + " kW") + FieldSeparator + (DecimalString(c.quantity.value) + "x")
  {
    var x, y, z := TypeTitle(c).value, cleanString(c.powerKW.value) + " kW", DecimalString(c.quantity.value) + "x";
    var fs := LabelFields(c, cleanString);
    assert Present(fs[0]) == [x] && Present(fs[1]) == [y] && Present(fs[2]) == [z];
    assert [x] + [y] + [z] == [x, y, z];
    ConnectionLabelOrder(c, cleanString);
    JoinThree(x, y, z, FieldSeparator);
  }

  /** Three parts joined: the separator sits between each pair of neighbours. */
  lemma JoinThree(x: string, y: string, z: string, sep: string)
    ensures Join([x, y, z], sep) == x + sep + y + sep + z
  {
    assert [x, y, z][1..] == [y, z];
    assert [y, z][1..] == [z];
  }

  /** A connection with none of the three fields gets an empty label, so a
      station whose only connection is such gets an empty summary rather than
      "No connector data". */
  lemma EmptyConnectionGivesEmptySummary(s: ChargingStation, cleanString: DoubleFormatter)
    requires s.connections.Some? && |s.connections.value| == 1
    requires var c := s.connections.value[0]; TypeTitle(c).None? && c.powerKW.None? && c.quantity.None?
    ensures ConnectorSummary(s, cleanString) == ""
  {
    ConnectorSummaryFirstTwo(s, cleanString);
  }
}
