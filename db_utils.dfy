/** Stubbed persistence lookups and the OpenWeatherMap visibility query. The
    random draw and the HTTP exchange are parameters. */
module DbUtils {
  import opened Wrappers
  import opened Text
  import opened Shared
  import Activities

  /** The stored trust score of an account: the stub never finds one. */
  function GetTrustScore(sourceAccountId: string): (r: Option<Hundredths>)
    ensures r == None
  {
    None
  }

  /** The report number for a location when `randint(10000, 99999)` returns
      `draw`: "AIS-" and five digits that spell the draw. */
  function GetOrCreateReportNumber(latitude: Coordinate, longitude: Coordinate, draw: int): (r: string)
    requires 10000 <= draw <= 99999
    ensures |r| == 9 && StartsWith(r, "AIS-")
    ensures AllDigits(r[4..]) && DigitsValue(r[4..]) == draw
  {
    Activities.FormatReportNumber(draw)
  }

  /** The largest visibility the weather service documents, in metres. */
  const MaxVisibility := 10000

  /** What the HTTP exchange yields: any transport, status or JSON failure, or
      the decoded body's `visibility` entry (None when the key is absent or null). */
  datatype WeatherResponse =
    | RequestFailed(reason: string)
    | Decoded(visibility: Option<int>)

  datatype VisibilityError =
    | ApiKeyNotSet
    | NoVisibilityField
    | RequestError(reason: string)

  function WeatherUrl(latitude: Coordinate, longitude: Coordinate, apiKey: string): string
  {
    "https://api.openweathermap.org/data/2.5/weather?lat=" + latitude + "&lon=" + longitude + "&appid=" + apiKey
  }

  /** The visibility at a location. `apiKey` is the environment variable and
      `fetch` answers a GET of a URL. An unset or empty key fails before any
      request; a body without visibility is an error; any failure of the
      exchange is raised again unchanged; otherwise the value capped at 10000. */
  function GetVisibilityForLocation(latitude: Coordinate, longitude: Coordinate, apiKey: Option<string>,
                                    fetch: string -> WeatherResponse): (r: Result<int, VisibilityError>)
    ensures (apiKey == None || apiKey == Some("")) <==> r == Err(ApiKeyNotSet)
    ensures r.Ok? ==> r.value <= MaxVisibility
  {
    if apiKey.None? || apiKey.value == "" then Err(ApiKeyNotSet)
    else
      match fetch(WeatherUrl(latitude, longitude, apiKey.value))
      case RequestFailed(reason) => Err(RequestError(reason))
      case Decoded(None) => Err(NoVisibilityField)
      case Decoded(Some(v)) => Ok(if v < MaxVisibility then v else MaxVisibility)
  }

  /** Without a key the answer does not depend on what any request would return. */
  lemma NoKeyNoRequest(latitude: Coordinate, longitude: Coordinate, apiKey: Option<string>,
                       fetch1: string -> WeatherResponse, fetch2: string -> WeatherResponse)
    requires apiKey == None || apiKey == Some("")
    ensures GetVisibilityForLocation(latitude, longitude, apiKey, fetch1)
         == GetVisibilityForLocation(latitude, longitude, apiKey, fetch2)
  {
  }

  /** With a key, the outcome is decided by the answer to the one weather URL:
      a failure comes back as the same error, no visibility is an error and not
      a default, and a value comes back as min(value, 10000). */
  lemma VisibilityOutcomes(latitude: Coordinate, longitude: Coordinate, key: string,
                           fetch: string -> WeatherResponse)
    requires key != ""
    ensures var answer := fetch(WeatherUrl(latitude, longitude, key));
      var r := GetVisibilityForLocation(latitude, longitude, Some(key), fetch);
      && (answer.RequestFailed? ==> r == Err(RequestError(answer.reason)))
      && (answer == Decoded(None) ==> r == Err(NoVisibilityField))
      && (answer.Decoded? && answer.visibility.Some? ==>
            r.Ok? && r.value <= MaxVisibility
            && (answer.visibility.value <= MaxVisibility ==> r.value == answer.visibility.value)
            && (answer.visibility.value > MaxVisibility ==> r.value == MaxVisibility))
  {
  }
}
