/** The request side of the OpenWeatherMap client: its settings, the
    parameter list each getter sends, the call through the API caller and the
    validation of the answer. */
module OpenWeatherMap {
  import opened Wrappers
  import opened Payload
  import opened Endpoint

  const DefaultUnits := "metric"
  const DefaultLanguage := "en"
  const DefaultAccuracy := "accurate"
  /** The day count daily forecasts ask for unless told otherwise. */
  const DefaultDayCount := "16"
  /** The clustering station queries ask for unless told otherwise. */
  const DefaultCluster := "yes"
  /** The code of the error raised when the caller obtained no response. */
  const NoResponseCode := 404

  /** The client's fields; `rawResponse` is PHP `null` until the first call. */
  datatype Client = Client(
    apiKey: string,
    units: string,
    language: string,
    accuracy: string,
    rawResponse: Option<Response>)

  /** The exception raised for a failed call, naming the endpoint. */
  datatype ApiError =
    | NoResponseFrom(endpoint: string)
    | ErrorFrom(endpoint: string, cod: Option<int>)

  /** The exception's code: 404 for no response, otherwise the envelope's `cod`. */
  function Code(e: ApiError): Option<int> {
    match e
    case NoResponseFrom(_) => Some(NoResponseCode)
    case ErrorFrom(_, cod) => cod
  }

  /** Where a query is about; the values are already in string form. */
  datatype Place =
    | CityName(name: string)
    | CityId(id: string)
    | Coordinates(latitude: string, longitude: string)

  /** One public getter with its arguments. */
  datatype Query =
    | CurrentWeather(place: Place)
    | CurrentWeatherByZip(zip: string)
    | HourlyForecast(place: Place)
    | DailyForecast(place: Place, cnt: string := DefaultDayCount)
    | HourlyHistorical(place: Place, start: string, end: string)
    | StationWeather(stationId: string)
    | StationsWeather(box: string, cnt: string, cluster: string := DefaultCluster)

  /** What a getter hands to endpoint building. */
  datatype Request = Request(pathName: string, parameters: seq<Parameter>)

  function New(apiKey: string, units: string := DefaultUnits, language: string := DefaultLanguage,
               accuracy: string := DefaultAccuracy): (c: Client)
    ensures c.apiKey == apiKey && c.units == units && c.language == language && c.accuracy == accuracy
    ensures c.rawResponse.None?
  {
    Client(apiKey, units, language, accuracy, None)
  }

  function SetUnits(c: Client, units: string): (r: Client)
    ensures r.units == units
    ensures r.(units := c.units) == c
  {
    c.(units := units)
  }

  function SetLanguage(c: Client, language: string): (r: Client)
    ensures r.language == language
    ensures r.(language := c.language) == c
  {
    c.(language := language)
  }

  function SetAccuracy(c: Client, accuracy: string): (r: Client)
    ensures r.accuracy == accuracy
    ensures r.(accuracy := c.accuracy) == c
  {
    c.(accuracy := accuracy)
  }

  function PlaceParameters(place: Place): seq<Parameter> {
    match place
    case CityName(name) => [Parameter("q", name)]
    case CityId(id) => [Parameter("id", id)]
    case Coordinates(lat, lon) => [Parameter("lat", lat), Parameter("lon", lon)]
  }

  /** The path and parameter list each getter builds, in the getter's order. */
  function RequestFor(c: Client, q: Query): (r: Request)
    ensures |r.parameters| > 0 && r.parameters[|r.parameters| - 1] == Parameter("mode", "json")
  {
    var common := [Parameter("language", c.language), Parameter("type", c.accuracy),
                   Parameter("units", c.units), Parameter("mode", "json")];
    match q
    case CurrentWeather(place) => Request("weather", PlaceParameters(place) + common)
    case CurrentWeatherByZip(zip) => Request("weather", [Parameter("zip", zip)] + common)
    case HourlyForecast(place) => Request("forecast", PlaceParameters(place) + common)
    case DailyForecast(place, cnt) => Request("forecast/daily", PlaceParameters(place) + [Parameter("cnt", cnt)] + common)
    case HourlyHistorical(place, start, end) =>
      Request("history/city", PlaceParameters(place) +
        [Parameter("language", c.language), Parameter("start", start), Parameter("end", end),
         Parameter("units", c.units), Parameter("type", "hour"), Parameter("mode", "json")])
    case StationWeather(stationId) =>
      Request("station", [Parameter("id", stationId), Parameter("language", c.language),
                          Parameter("units", c.units), Parameter("mode", "json")])
    case StationsWeather(box, cnt, cluster) =>
      Request("box/station", [Parameter("box", box), Parameter("cnt", cnt), Parameter("cluster", cluster),
                              Parameter("units", c.units), Parameter("mode", "json")])
  }

  /** A daily forecast asks for 16 days and a station box query for
      clustering unless the caller says otherwise. */
  lemma GetterDefaultsReachRequests(c: Client, place: Place, box: string, cnt: string)
    ensures Parameter("cnt", "16") in RequestFor(c, DailyForecast(place)).parameters
    ensures Parameter("cluster", "yes") in RequestFor(c, StationsWeather(box, cnt)).parameters
  {
  }

  /** Historical queries always send `type=hour`, whatever the accuracy. */
  lemma HistoricalIgnoresAccuracy(c: Client, place: Place, start: string, end: string, accuracy: string)
    ensures var r := RequestFor(c, HourlyHistorical(place, start, end));
      && Parameter("type", "hour") in r.parameters
      && RequestFor(SetAccuracy(c, accuracy), HourlyHistorical(place, start, end)) == r
  {
  }

  /** The other weather and forecast queries send the accuracy as `type`. */
  lemma AccuracySentAsType(c: Client, q: Query)
    requires q.CurrentWeather? || q.CurrentWeatherByZip? || q.HourlyForecast? || q.DailyForecast?
    ensures Parameter("type", c.accuracy) in RequestFor(c, q).parameters
  {
  }

  /** A setter's value reaches every request that carries its field: units
      go everywhere, the language everywhere except the station box query. */
  lemma SettersReachRequests(c: Client, q: Query, units: string, language: string)
    ensures Parameter("units", units) in RequestFor(SetUnits(c, units), q).parameters
    ensures !q.StationsWeather? ==> Parameter("language", language) in RequestFor(SetLanguage(c, language), q).parameters
  {
  }

  /** `validateApiResponse`: no response is an error with code 404; a decoded
      value other than `false` is an error unless its `cod` is 200, and that
      includes a body that does not decode at all. */
  function ValidateApiResponse(response: Response, endpoint: string, decode: Decoder): (r: Result<(), ApiError>)
    ensures r.Success? ==> response.Body?
    ensures response.NoResponse? ==> r == Failure(NoResponseFrom(endpoint)) && Code(r.error) == Some(NoResponseCode)
    ensures response.Body? && decode(response.text).DecodesTo? ==>
      && (r.Success? <==> decode(response.text).cod == Some(SuccessCode))
      && (r.Failure? ==> r.error == ErrorFrom(endpoint, decode(response.text).cod))
    ensures response.Body? && decode(response.text) == DecodesToNull ==> r == Failure(ErrorFrom(endpoint, None))
    ensures response.Body? && decode(response.text) == DecodesToFalse ==> r.Success?
  {
    match response
    case NoResponse => Failure(NoResponseFrom(endpoint))
    case Body(text) =>
      match decode(text)
      case DecodesToFalse => Success(())
      // `null->cod` reads as null, which is unequal to 200.
      case DecodesToNull => Failure(ErrorFrom(endpoint, None))
      case DecodesTo(cod) => if cod == Some(SuccessCode) then Success(()) else Failure(ErrorFrom(endpoint, cod))
  }

  /** `makeApiCall`: asks the caller and keeps its answer as the raw response. */
  function MakeApiCall(c: Client, caller: string -> Response, endpoint: string): (r: (Client, Response))
    ensures r.1 == caller(endpoint)
    ensures r.0.rawResponse == Some(r.1)
    ensures r.0.(rawResponse := c.rawResponse) == c
  {
    var response := caller(endpoint);
    (c.(rawResponse := Some(response)), response)
  }

  /** `getRawResponse`: calls the endpoint for `pathName` and `ps` and returns
      the raw body when it validates. The raw response is kept even when
      validation raises. */
  function GetRawResponse(c: Client, caller: string -> Response, decode: Decoder,
                          pathName: string, ps: seq<Parameter>): (r: (Client, Result<string, ApiError>))
    ensures var endpoint := ApiEndpoint(c.apiKey, pathName, ps);
      && r.0 == c.(rawResponse := Some(caller(endpoint)))
      && (r.1.Success? <==> ValidateApiResponse(caller(endpoint), endpoint, decode).Success?)
      && (r.1.Success? ==> r.0.rawResponse == Some(Body(r.1.value)))
      && (r.1.Failure? ==> r.1 == Failure(ValidateApiResponse(caller(endpoint), endpoint, decode).error))
  {
    var endpoint := ApiEndpoint(c.apiKey, pathName, ps);
    var (c', response) := MakeApiCall(c, caller, endpoint);
    match ValidateApiResponse(response, endpoint, decode)
    case Success(_) => (c', Success(response.text))
    case Failure(e) => (c', Failure(e))
  }

  /** The getters: build the request, call and validate as `getRawResponse`
      does. They return the validated body; its conversion to an array is
      JSON decoding and not part of this model. */
  function Perform(c: Client, caller: string -> Response, decode: Decoder, q: Query): (r: (Client, Result<string, ApiError>))
    ensures var req := RequestFor(c, q);
      var endpoint := ApiEndpoint(c.apiKey, req.pathName, req.parameters);
      && r.0 == c.(rawResponse := Some(caller(endpoint)))
      && (r.1.Success? <==> ValidateApiResponse(caller(endpoint), endpoint, decode).Success?)
      && (r.1.Success? ==> caller(endpoint) == Body(r.1.value))
      && (r.1.Failure? ==> r.1 == Failure(ValidateApiResponse(caller(endpoint), endpoint, decode).error))
      && (r.1.Failure? ==> r.1.error.endpoint == endpoint)
  {
    var req := RequestFor(c, q);
    GetRawResponse(c, caller, decode, req.pathName, req.parameters)
  }
}
