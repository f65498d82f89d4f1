/** The plain text of the terminal interface's time, airport and aircraft
    cells (`src/fr24/tui/formatters.py`); styles are not modelled. */
module Formatters {
  import opened Wrappers

  /** `Time(timestamp).__format__(spec)`: no timestamp gives no text; a
      timestamp is formatted by `format` (the date-time formatting). */
  function FormatTime(timestamp: Option<int>, format: int -> string): (s: string)
    ensures timestamp.None? ==> s == ""
    ensures timestamp.Some? ==> s == format(timestamp.value)
  {
    match timestamp
    case None => ""
    case Some(t) => format(t)
  }

  /** The JSON of an airport, with the keys the label reads; a missing key
      or a null value is `None`, an absent or empty dictionary too. */
  datatype AirportCode = AirportCode(icao: Option<string>)
  datatype Region = Region(city: Option<string>)
  datatype Position = Position(region: Option<Region>)
  datatype AirportJson = AirportJson(code: Option<AirportCode>, position: Option<Position>, name: Option<string>)

  /** The ICAO code shown: `code.icao`, or "". */
  function AirportIcao(a: AirportJson): string {
    match a.code
    case None => ""
    case Some(c) => c.icao.GetOr("")
  }

  /** `position.region.city`, or "" when any part of it is missing. */
  function RegionCity(a: AirportJson): string {
    match a.position
    case None => ""
    case Some(p) =>
      match p.region
      case None => ""
      case Some(r) => r.city.GetOr("")
  }

  /** The city shown: `position.region.city`, and the airport's name when
      that is empty. */
  function AirportCity(a: AirportJson): (city: string)
    ensures RegionCity(a) != "" ==> city == RegionCity(a)
    ensures RegionCity(a) == "" ==> city == a.name.GetOr("")
    ensures city == "" <==> RegionCity(a) == "" && a.name.GetOr("") == ""
  {
    var fromPosition := RegionCity(a);
    if fromPosition == "" then a.name.GetOr("") else fromPosition
  }

  /** `Airport(airport).to_text()`. */
  function AirportText(airport: Option<AirportJson>): (s: string)
    ensures airport.None? ==> s == ""
  {
    match airport
    case None => ""
    case Some(a) =>
      var city := AirportCity(a);
      var icao := AirportIcao(a);
      if city != "" && icao != "" then city + " (" + icao + ")"
      else if city != "" then city
      else if icao != "" then "(" + icao + ")"
      else ""
  }

  /** The label shows the city first, the ICAO code in parentheses last,
      and is empty exactly when there is neither. */
  lemma AirportTextParts(a: AirportJson)
    ensures var s, city, icao := AirportText(Some(a)), AirportCity(a), AirportIcao(a);
      && (s == "" <==> city == "" && icao == "")
      && (city != "" && icao != "" ==> s == city + " (" + icao + ")")
      && (city != "" ==> |city| <= |s| && s[..|city|] == city)
      && (icao != "" ==> |icao| + 2 <= |s| && s[|s| - |icao| - 2..] == "(" + icao + ")")
      && (icao == "" ==> s == city)
      && (city == "" ==> s == (if icao == "" then "" else "(" + icao + ")"))
  {
    var s, city, icao := AirportText(Some(a)), AirportCity(a), AirportIcao(a);
    if city != "" && icao != "" {
      assert s == city + " (" + icao + ")";
      assert s[..|city|] == city;
      assert s[|s| - |icao| - 2..] == "(" + icao + ")";
    }
  }

  /** An airport without position or city is labelled by its name. */
  lemma AirportTextFallsBackToName(a: AirportJson, name: string)
    requires a.position.None? && a.name == Some(name) && name != ""
    ensures AirportCity(a) == name
    ensures AirportText(Some(a))[..|name|] == name
  {
    AirportTextParts(a);
  }

  /** The JSON of an aircraft, with the keys the label reads. */
  datatype AircraftModel = AircraftModel(code: Option<string>)
  datatype AircraftJson = AircraftJson(registration: Option<string>, model: Option<AircraftModel>)

  function AircraftTypecode(a: AircraftJson): string {
    match a.model
    case None => ""
    case Some(m) => m.code.GetOr("")
  }

  /** `Aircraft(aircraft).to_text()`. */
  function AircraftText(aircraft: Option<AircraftJson>): (s: string)
    ensures aircraft.None? ==> s == ""
  {
    match aircraft
    case None => ""
    case Some(a) =>
      var registration := a.registration.GetOr("");
      if registration != "" then registration + " (" + AircraftTypecode(a) + ")"
      else AircraftTypecode(a)
  }

  /** With a registration the label is the registration followed by the
      type code in parentheses, even an empty one; without, the type code
      alone. */
  lemma AircraftTextParts(a: AircraftJson)
    ensures var s, reg, code := AircraftText(Some(a)), a.registration.GetOr(""), AircraftTypecode(a);
      && (reg != "" ==> |s| == |reg| + |code| + 3 && s[..|reg|] == reg && s[|reg|..|reg| + 2] == " ("
                        && s[|reg| + 2..|s| - 1] == code && s[|s| - 1] == ')')
      && (reg == "" ==> s == code)
      && (s == "" <==> reg == "" && code == "")
  {
    var s, reg, code := AircraftText(Some(a)), a.registration.GetOr(""), AircraftTypecode(a);
    if reg != "" {
      assert s == reg + " (" + code + ")";
      assert s[..|reg|] == reg;
      assert s[|reg| + 2..|s| - 1] == code;
    }
  }
}
