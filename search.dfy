/** The `/search` route (app.py, lines 89-102): read the `location` field
    of the submitted form, strip it, refuse a blank one with a fixed error
    and a suggestion, and otherwise hand the stripped text to
    `fetch_weather`. Rendering the result as JSON is not modelled. */
module SearchRoute {
  import opened Text
  import Normalize
  import opened Fetch

  const BlankError: string := "Please enter a location."
  const BlankSuggestion: string :=
    "Type a city name (e.g., 'Portland, OR') or zip code (e.g., '97201')"

  /** The one failure that carries a suggestion. */
  const BlankFailure: WeatherResult := Failure(BlankError, Some(BlankSuggestion))

  /** `request.form.get("location", "")`: the submitted field, or the empty
      string when the form has none. */
  function FormLocation(form: map<string, string>): string {
    if "location" in form then form["location"] else ""
  }

  /** The route, given the submitted form and what the provider answers for
      each query string. A suggestion is present exactly when the field was
      missing or blank, and then the result is the fixed blank-input
      failure. */
  function Search(form: map<string, string>, provider: string -> ProviderOutcome): (r: WeatherResult)
    ensures r.Failure? && r.suggestion.Some? <==> AllSpace(FormLocation(form))
    ensures AllSpace(FormLocation(form)) ==> r == BlankFailure
  {
    var location := Trim(FormLocation(form));
    if location == [] then BlankFailure else FetchWeather(location, provider)
  }

  /** A blank or missing location never reaches the provider: the answer is
      the same whatever the provider would have said (app.py, lines 92-99). */
  lemma SearchBlankIgnoresProvider(form: map<string, string>, p: string -> ProviderOutcome, q: string -> ProviderOutcome)
    requires AllSpace(FormLocation(form))
    ensures Search(form, p) == Search(form, q) == BlankFailure
  {
  }

  /** Any other location is stripped and passed to `fetch_weather`, whose
      query to the provider is then the normalization of the field as
      submitted and always holds the ",US" marker (app.py, lines 92 and
      101-102). */
  lemma SearchPassesTrimmed(form: map<string, string>, p: string -> ProviderOutcome)
    requires !AllSpace(FormLocation(form))
    ensures var location := Trim(FormLocation(form));
      && location != []
      && Search(form, p) == FetchWeather(location, p)
      && Normalize.NormalizeLocation(location) == Normalize.NormalizeLocation(FormLocation(form))
      && Normalize.HasUSMarker(Normalize.NormalizeLocation(location))
  {
    Normalize.NormalizeIgnoresOuterSpace(FormLocation(form));
    Normalize.NormalizeHasMarker(FormLocation(form));
  }

  /** When the provider does not know the query, the message quotes the
      location as the route passed it on: stripped, but not normalized
      (app.py, lines 65-69 and 92). */
  lemma SearchNotFound(form: map<string, string>, p: string -> ProviderOutcome)
    requires !AllSpace(FormLocation(form))
    requires p(Normalize.NormalizeLocation(FormLocation(form))).Responded?
    requires p(Normalize.NormalizeLocation(FormLocation(form))).status == 404
    ensures Search(form, p) == Failure(NotFoundMessage(Trim(FormLocation(form))), None)
  {
    var raw := FormLocation(form);
    var location := Trim(raw);
    Normalize.NormalizeIgnoresOuterSpace(raw);
    var outcome := p(Normalize.NormalizeLocation(location));
    assert Search(form, p) == Classify(location, outcome);
    ClassifyNotFound(location, outcome.body);
  }

  /** The route only succeeds when the provider answered the normalized
      query with status 200 and a well-formed payload, and then reports that
      payload's fields (app.py, lines 46-63 and 101-102). */
  lemma SearchSuccess(form: map<string, string>, p: string -> ProviderOutcome)
    ensures var outcome := p(Normalize.NormalizeLocation(FormLocation(form)));
      Search(form, p).Success? <==>
        && !AllSpace(FormLocation(form))
        && outcome.Responded? && outcome.status == 200
        && outcome.body.Some? && WellFormed(outcome.body.value)
  {
    var raw := FormLocation(form);
    if !AllSpace(raw) {
      Normalize.NormalizeIgnoresOuterSpace(raw);
      ClassifySuccess(Trim(raw), p(Normalize.NormalizeLocation(raw)));
    }
  }
}
