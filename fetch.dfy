/** The part of `fetch_weather` that turns the outcome of its single call to
    the provider into the uniform result dictionary (app.py, lines 42-80).
    The call itself is not modelled: its outcome is an input, either a
    response with a status code and a body, or an exception. */
module Fetch {
  import Normalize

  datatype Option<+T> = None | Some(value: T) {
    predicate IsFailure() {
      None?
    }

    function PropagateFailure<U>(): Option<U>
      requires None?
    {
      None
    }

    function Extract(): T
      requires Some?
    {
      value
    }
  }

  /** A decoded JSON document, as `response.json()` hands it to Python.
      Numbers keep the text they were written with: the model only copies
      them or checks that they are numbers. */
  datatype Json =
    | JNull
    | JBool(b: bool)
    | JNumber(text: string)
    | JString(str: string)
    | JArray(items: seq<Json>)
    | JObject(members: map<string, Json>)

  /** What the provider call produced: a response whose body decodes to JSON
      (`Some`) or does not (`None`, so that `response.json()` raises), or an
      exception from `requests.get` itself (connection error, timeout). */
  datatype ProviderOutcome =
    | Responded(status: int, body: Option<Json>)
    | Raised

  /** The fields of a successful result. Temperatures and wind speed are
      the provider's raw readings in imperial units; the model leaves out
      their rounding and the Celsius conversion, the title-casing of the
      description and the measured latency. */
  datatype Report = Report(
    city: Json,
    country: Json,
    temp: Json,
    feelsLike: Json,
    humidity: Json,
    description: string,
    icon: Json,
    windSpeed: Json,
    pressure: Json)

  /** The dictionary `fetch_weather` returns: `success` is the constructor,
      and a failure carries its `error` text and, only where the source adds
      one, a `suggestion`. */
  datatype WeatherResult =
    | Success(report: Report)
    | Failure(error: string, suggestion: Option<string>)

  const SomethingWentWrong: string := "Something went wrong. Please try again."
  const UnableToFetch: string := "Unable to fetch weather data. Please try again."
  const NotFoundLead: string := "Location \""
  const NotFoundTail: string := "\" not found. Try a different city name or zip code."

  /** The 404 message, which quotes the location as `fetch_weather`
      received it, before normalization; the location can be read back from
      between the fixed lead and tail. */
  function NotFoundMessage(location: string): (m: string)
    ensures |m| == |NotFoundLead| + |location| + |NotFoundTail|
    ensures m[|NotFoundLead|..|m| - |NotFoundTail|] == location
  {
    NotFoundLead + location + NotFoundTail
  }

  /** Different locations give different 404 messages. */
  lemma NotFoundMessageInjective(a: string, b: string)
    requires NotFoundMessage(a) == NotFoundMessage(b)
    ensures a == b
  {
    var ma, mb := NotFoundMessage(a), NotFoundMessage(b);
    assert a == ma[|NotFoundLead|..|ma| - |NotFoundTail|];
    assert b == mb[|NotFoundLead|..|mb| - |NotFoundTail|];
  }

  /** `x[key]`: raises unless `x` is an object holding `key`. */
  function Index(x: Json, key: string): Option<Json> {
    if x.JObject? && key in x.members then Some(x.members[key]) else None
  }

  /** `x.get(key, default)`: raises unless `x` is an object. */
  function GetOr(x: Json, key: string, default: Json): Option<Json> {
    if !x.JObject? then None
    else if key in x.members then Some(x.members[key])
    else Some(default)
  }

  /** `x[0]`: the first item of a list or the first character of a string;
      raises on anything else, on an empty list or string, and on an object
      (whose keys are strings, never the integer 0). */
  function First(x: Json): Option<Json> {
    match x
    case JArray(items) => if items == [] then None else Some(items[0])
    case JString(s) => if s == [] then None else Some(JString([s[0]]))
    case _ => None
  }

  /** `round(x, 1)` and `x - 32` succeed on numbers and booleans and raise on
      every other JSON value. */
  function Numeric(x: Json): Option<Json> {
    if x.JNumber? || x.JBool? then Some(x) else None
  }

  /** `.title()` exists on strings only. */
  function AsString(x: Json): Option<string> {
    if x.JString? then Some(x.str) else None
  }

  /** The dictionary literal of app.py, lines 48-62, evaluated field by
      field: the first lookup that raises aborts it. */
  function ReadReport(data: Json): Option<Report> {
    var city :- Index(data, "name");
    var sys :- Index(data, "sys");
    var country :- GetOr(sys, "country", JString(""));
    var main :- Index(data, "main");
    var temp :- Index(main, "temp");
    var temp :- Numeric(temp);
    var feelsLike :- Index(main, "feels_like");
    var feelsLike :- Numeric(feelsLike);
    var humidity :- Index(main, "humidity");
    var weather :- Index(data, "weather");
    var current :- First(weather);
    var description :- Index(current, "description");
    var description :- AsString(description);
    var icon :- Index(current, "icon");
    var wind :- Index(data, "wind");
    var speed :- Index(wind, "speed");
    var speed :- Numeric(speed);
    var pressure :- Index(main, "pressure");
    Some(Report(city, country, temp, feelsLike, humidity, description, icon, speed, pressure))
  }

  predicate Has(x: Json, key: string) {
    x.JObject? && key in x.members
  }

  predicate IsNumber(x: Json) {
    x.JNumber? || x.JBool?
  }

  /** The `main` block: two numeric readings, humidity and pressure. */
  predicate MainWellFormed(main: Json) {
    && Has(main, "temp") && IsNumber(main.members["temp"])
    && Has(main, "feels_like") && IsNumber(main.members["feels_like"])
    && Has(main, "humidity")
    && Has(main, "pressure")
  }

  /** The `weather` list: its first entry has a text description and an
      icon. */
  predicate WeatherWellFormed(weather: Json) {
    && weather.JArray? && |weather.items| > 0
    && Has(weather.items[0], "description")
    && weather.items[0].members["description"].JString?
    && Has(weather.items[0], "icon")
  }

  /** The shape of a payload from which the dictionary can be built without
      an exception, stated field by field. */
  predicate WellFormed(data: Json) {
    && Has(data, "name")
    && Has(data, "sys") && data.members["sys"].JObject?
    && Has(data, "main") && MainWellFormed(data.members["main"])
    && Has(data, "weather") && WeatherWellFormed(data.members["weather"])
    && Has(data, "wind") && Has(data.members["wind"], "speed")
    && IsNumber(data.members["wind"].members["speed"])
  }

  /** Building the dictionary succeeds exactly on well-formed payloads, and
      then `city`, `humidity`, `pressure`, `icon` and the readings are copied
      unchanged while `country` defaults to "" (app.py, lines 49-59). */
  lemma ReadReportSpec(data: Json)
    ensures ReadReport(data).Some? <==> WellFormed(data)
    ensures ReadReport(data).Some? ==>
      var r := ReadReport(data).value;
      var sys := data.members["sys"];
      var main := data.members["main"];
      var current := data.members["weather"].items[0];
      && r.city == data.members["name"]
      && r.country == (if "country" in sys.members then sys.members["country"] else JString(""))
      && r.temp == main.members["temp"]
      && r.feelsLike == main.members["feels_like"]
      && r.humidity == main.members["humidity"]
      && r.pressure == main.members["pressure"]
      && r.description == current.members["description"].str
      && r.icon == current.members["icon"]
      && r.windSpeed == data.members["wind"].members["speed"]
  {
    if Has(data, "weather") {
      var weather := data.members["weather"];
      if weather.JString? && weather.str != [] {
        assert First(weather) == Some(JString([weather.str[0]]));
        assert !Has(JString([weather.str[0]]), "description");
      }
    }
  }

  /** The branch-and-return of app.py, lines 42-80: a response with status
      200 and a well-formed payload is a success; 404 names the location;
      any other status, any exception and any payload that makes building
      the dictionary raise become fixed messages. Nothing escapes. */
  function Classify(location: string, outcome: ProviderOutcome): (r: WeatherResult)
    ensures r.Failure? ==> r.suggestion.None?
  {
    match outcome
    case Raised => Failure(SomethingWentWrong, None)
    case Responded(status, body) =>
      if status == 200 then
        match body
        case None => Failure(SomethingWentWrong, None)
        case Some(data) =>
          match ReadReport(data)
          case None => Failure(SomethingWentWrong, None)
          case Some(report) => Success(report)
      else if status == 404 then
        Failure(NotFoundMessage(location), None)
      else
        Failure(UnableToFetch, None)
  }

  /** `fetch_weather(location)`, given what the provider answers for each
      query string: it is asked exactly once, with the normalized location. */
  function FetchWeather(location: string, provider: string -> ProviderOutcome): (r: WeatherResult)
    ensures r.Failure? ==> r.suggestion.None?
  {
    Classify(location, provider(Normalize.NormalizeLocation(location)))
  }

  /** Success exactly when the provider answered 200 with a well-formed
      payload; the result then holds that payload's fields. */
  lemma ClassifySuccess(location: string, outcome: ProviderOutcome)
    ensures Classify(location, outcome).Success? <==>
      outcome.Responded? && outcome.status == 200 && outcome.body.Some? && WellFormed(outcome.body.value)
    ensures Classify(location, outcome).Success? ==>
      Classify(location, outcome).report == ReadReport(outcome.body.value).value
  {
    if outcome.Responded? && outcome.body.Some? {
      ReadReportSpec(outcome.body.value);
    }
  }

  /** A 404 is a failure whose message quotes the location as given. */
  lemma ClassifyNotFound(location: string, body: Option<Json>)
    ensures Classify(location, Responded(404, body)) == Failure(NotFoundMessage(location), None)
  {
  }

  /** Any status other than 200 and 404 gives the fixed "Unable to fetch"
      message, whatever the location. */
  lemma ClassifyOtherStatus(location: string, status: int, body: Option<Json>)
    requires status != 200 && status != 404
    ensures Classify(location, Responded(status, body)) == Failure(UnableToFetch, None)
  {
  }

  /** An exception, a body that is not JSON and a payload that is missing a
      field or holds one of the wrong type all give the fixed "Something went
      wrong" message. */
  lemma ClassifyRaised(location: string, outcome: ProviderOutcome)
    requires || outcome.Raised?
             || (outcome.status == 200 && (outcome.body.None? || !WellFormed(outcome.body.value)))
    ensures Classify(location, outcome) == Failure(SomethingWentWrong, None)
  {
    if outcome.Responded? && outcome.body.Some? {
      ReadReportSpec(outcome.body.value);
    }
  }

  /** The three failure messages are told apart by their lengths, so a
      caller can tell which branch produced a failure. */
  lemma FailureMessagesDistinct(location: string)
    ensures NotFoundMessage(location) != UnableToFetch
    ensures NotFoundMessage(location) != SomethingWentWrong
    ensures UnableToFetch != SomethingWentWrong
  {
    assert |UnableToFetch| == 47 && |SomethingWentWrong| == 39;
    assert |NotFoundLead| == 10 && |NotFoundTail| == 51;
  }
}
