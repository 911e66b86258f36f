/** The ways a fetch stage can fail, and the message the city search shows
    for each. */
module Failures {

  predicate AllDigits(s: string) {
    forall i :: 0 <= i < |s| ==> '0' <= s[i] <= '9'
  }

  /** Decimal rendering of a status code, as a template literal prints it. */
  function Decimal(n: nat): (s: string)
    ensures |s| > 0
    ensures AllDigits(s)
    ensures s[0] == '0' <==> n == 0
    ensures |s| > 1 ==> s[0] != '0'
  {
    if n < 10 then [(48 + n) as char] else Decimal(n / 10) + [(48 + n % 10) as char]
  }

  /** Reads a string of decimal digits back as a number. */
  function ParseDecimal(s: string): nat
    requires AllDigits(s)
  {
    if s == [] then 0 else 10 * ParseDecimal(s[..|s| - 1]) + (s[|s| - 1] as int - 48)
  }

  lemma {:induction false} DecimalRoundTrip(n: nat)
    ensures ParseDecimal(Decimal(n)) == n
  {
    if n >= 10 {
      var s := Decimal(n);
      assert s[..|s| - 1] == Decimal(n / 10);
      DecimalRoundTrip(n / 10);
    }
  }

  /** Distinct status codes render distinctly. */
  lemma DecimalInjective(a: nat, b: nat)
    requires Decimal(a) == Decimal(b)
    ensures a == b
  {
    DecimalRoundTrip(a);
    DecimalRoundTrip(b);
  }

  /** The message for a geocoding search without matches. */
  const CityNotFoundMessage: string := "City not found. Please check the spelling and try again."

  datatype FetchError =
    | GeocodingFailed(status: nat)
    | CityNotFound
    | WeatherApiError(currentStatus: nat, forecastStatus: nat)
    | AirPollutionApiError(status: nat)
    | InvalidAirPollutionData
    | NetworkError(message: string)
  {
    /** The `error.message` the search flow stores in its error state: the
        template text of each failure with its statuses in decimal, or a
        transport error's own message. */
    function Message(): (m: string)
      ensures NetworkError? ==> m == message
      ensures CityNotFound? ==> m == CityNotFoundMessage
      ensures InvalidAirPollutionData? ==> m == "Invalid air pollution data"
      ensures GeocodingFailed? ==>
                "Geocoding failed: " <= m && m[|"Geocoding failed: "|..] == Decimal(status)
      ensures AirPollutionApiError? ==>
                "Air Pollution API Error: " <= m && m[|"Air Pollution API Error: "|..] == Decimal(status)
      ensures WeatherApiError? ==>
                "Weather API Error: Current " <= m &&
                m[|"Weather API Error: Current "|..] == Decimal(currentStatus) + ", Forecast " + Decimal(forecastStatus)
    {
      match this
      case GeocodingFailed(status) => "Geocoding failed: " + Decimal(status)
      case CityNotFound => CityNotFoundMessage
      case WeatherApiError(c, f) => "Weather API Error: Current " + Decimal(c) + ", Forecast " + Decimal(f)
      case AirPollutionApiError(status) => "Air Pollution API Error: " + Decimal(status)
      case InvalidAirPollutionData => "Invalid air pollution data"
      case NetworkError(message) => message
    }
  }

  /** Length of the run of digits `s` starts with. */
  function LeadingDigits(s: string): nat {
    if s == [] || !('0' <= s[0] <= '9') then 0 else 1 + LeadingDigits(s[1..])
  }

  lemma {:induction false} LeadingDigitsOf(a: string, rest: string)
    requires AllDigits(a)
    requires |rest| > 0 && !('0' <= rest[0] <= '9')
    ensures LeadingDigits(a + rest) == |a|
  {
    if a != [] {
      assert (a + rest)[1..] == a[1..] + rest;
      LeadingDigitsOf(a[1..], rest);
    }
  }

  /** Two digit strings followed by the same non-digit separator split apart. */
  lemma SplitAtSeparator(a: string, b: string, c: string, d: string, sep: string)
    requires AllDigits(a) && AllDigits(c)
    requires |sep| > 0 && !('0' <= sep[0] <= '9')
    requires a + sep + b == c + sep + d
    ensures a == c && b == d
  {
    var l, r := a + sep + b, c + sep + d;
    assert l == a + (sep + b) && r == c + (sep + d);
    LeadingDigitsOf(a, sep + b);
    LeadingDigitsOf(c, sep + d);
    assert a == l[..|a|] == r[..|c|] == c;
    assert b == l[|a| + |sep|..] == r[|c| + |sep|..] == d;
  }

  lemma DropPrefix(p: string, x: string, y: string)
    requires p + x == p + y
    ensures x == y
  {
    assert x == (p + x)[|p|..] && y == (p + y)[|p|..];
  }

  /** The weather error message carries both statuses: it determines them. */
  lemma WeatherMessageCarriesStatuses(c1: nat, f1: nat, c2: nat, f2: nat)
    requires WeatherApiError(c1, f1).Message() == WeatherApiError(c2, f2).Message()
    ensures c1 == c2 && f1 == f2
  {
    var p := "Weather API Error: Current ";
    var sep := ", Forecast ";
    var x1, x2 := Decimal(c1) + sep + Decimal(f1), Decimal(c2) + sep + Decimal(f2);
    assert WeatherApiError(c1, f1).Message() == p + x1;
    assert WeatherApiError(c2, f2).Message() == p + x2;
    DropPrefix(p, x1, x2);
    SplitAtSeparator(Decimal(c1), Decimal(f1), Decimal(c2), Decimal(f2), sep);
    DecimalInjective(c1, c2);
    DecimalInjective(f1, f2);
  }

  /** The letter each message template starts with; the city-not-found
      message is told apart by its last character instead. */
  function Initial(e: FetchError): char
    requires !e.NetworkError? && !e.CityNotFound?
  {
    match e
    case GeocodingFailed(_) => 'G'
    case WeatherApiError(_, _) => 'W'
    case AirPollutionApiError(_) => 'A'
    case InvalidAirPollutionData => 'I'
  }

  lemma MessageInitial(e: FetchError)
    requires !e.NetworkError? && !e.CityNotFound?
    ensures |e.Message()| > 0 && e.Message()[0] == Initial(e)
  {
    match e
    case GeocodingFailed(s) =>
      assert e.Message() == "Geocoding failed: " + Decimal(s);
    case WeatherApiError(c, f) =>
      assert e.Message() == "Weather API Error: Current " + (Decimal(c) + ", Forecast " + Decimal(f));
    case AirPollutionApiError(s) =>
      assert e.Message() == "Air Pollution API Error: " + Decimal(s);
    case InvalidAirPollutionData =>
      var m := "Invalid air pollution data";
      assert e.Message() == m && m[0] == 'I';
  }

  /** Only the city-not-found message ends with a full stop: the others end
      with a status digit or with the word "data". */
  lemma MessageFinal(e: FetchError)
    requires !e.NetworkError?
    ensures |e.Message()| > 0
    ensures e.Message()[|e.Message()| - 1] == '.' <==> e.CityNotFound?
  {
    match e
    case GeocodingFailed(s) =>
      var d := Decimal(s);
      assert e.Message()[|e.Message()| - 1] == d[|d| - 1];
    case WeatherApiError(c, f) =>
      var d := Decimal(f);
      assert e.Message() == "Weather API Error: Current " + Decimal(c) + ", Forecast " + d;
      assert e.Message()[|e.Message()| - 1] == d[|d| - 1];
    case AirPollutionApiError(s) =>
      var d := Decimal(s);
      assert e.Message()[|e.Message()| - 1] == d[|d| - 1];
    case CityNotFound =>
    case InvalidAirPollutionData =>
  }

  /** Apart from transport errors, whose text comes from the platform, the
      message names the failure exactly: equal messages mean equal errors. */
  lemma MessageIdentifiesError(e1: FetchError, e2: FetchError)
    requires !e1.NetworkError? && !e2.NetworkError?
    requires e1.Message() == e2.Message()
    ensures e1 == e2
  {
    MessageFinal(e1);
    MessageFinal(e2);
    if !e1.CityNotFound? {
      MessageInitial(e1);
      MessageInitial(e2);
    }
    match e1
    case GeocodingFailed(s1) =>
      var s2 := e2.status;
      DropPrefix("Geocoding failed: ", Decimal(s1), Decimal(s2));
      DecimalInjective(s1, s2);
    case WeatherApiError(c1, f1) =>
      WeatherMessageCarriesStatuses(c1, f1, e2.currentStatus, e2.forecastStatus);
    case AirPollutionApiError(s1) =>
      var s2 := e2.status;
      DropPrefix("Air Pollution API Error: ", Decimal(s1), Decimal(s2));
      DecimalInjective(s1, s2);
    case CityNotFound =>
    case InvalidAirPollutionData =>
  }
}
