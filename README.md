# Weather dashboard: location normalizer, outcome classifier and search guard

A Dafny model of the request path of the weather dashboard's Flask
back end (`app.py`):

- **Location normalizer** (`fetch_weather`, app.py lines 19-31). It strips
  the user's text. A five-digit zip code gets ",US" appended. Anything else
  loses a trailing state abbreviation matched by the regex `,\s*[A-Z]{2}$`,
  and gets ",US" appended unless its upper-cased form already contains
  ",US".
- **Outcome classifier** (`fetch_weather`, app.py lines 42-80). It turns
  the provider's single answer into the result dictionary:
  - success with the copied fields;
  - a 404 message quoting the location as given;
  - fixed messages for any other status, for an exception, and for a
    payload missing a field.
- **Search guard** (`search`, app.py lines 89-102). It reads the form
  field and rejects a blank one with an error and a suggestion. Otherwise
  it calls `fetch_weather` on the stripped text.

The model is pure, as the source is. The files are:

- `text.dfy` (module `Text`): the Python string primitives the source
  relies on, namely `str.strip()`, `str.upper()` and substring search.
- `normalize.dfy` (module `Normalize`): the normalizer and its
  properties.
- `fetch.dfy` (module `Fetch`): the JSON payload, the provider's outcome
  and the classifier.
- `search.dfy` (module `SearchRoute`): the `/search` route.

The provider call is a parameter. `FetchWeather` and `Search` take a
function from query string to `ProviderOutcome`, which is one of:

- a response with a status code and a body that either decodes to JSON or
  does not;
- an exception.

Every function is total. This is how the model states that
`fetch_weather` never lets an exception escape: each outcome maps to a
result.

Three behaviours of the code worth knowing:

- **A 404 failure has no `suggestion` key.** The hint is part of the error
  text (app.py:66-69). Only the blank-input failure of `/search` carries a
  suggestion.
- **"Paris,FR" becomes "Paris,US", not "Paris,FR,US".** The regex removes
  any two capitals after a comma, so a country code is dropped like a
  state.
- **The marker test is narrower than "US" anywhere.** The code looks for
  the three characters ",US" in the upper-cased text. The letters "US"
  without a comma do not count, and a lower-case ",us" does.

## Model

| member | source | states |
|---|---|---|
| Text.TrimStart | app.py:20 | the left strip keeps a suffix of the input that does not start with whitespace, and everything it drops is whitespace |
| Text.TrimEnd | app.py:20 | the right strip keeps a prefix that does not end with whitespace, and everything it drops is whitespace |
| Text.Trim | app.py:20 | `strip()` is empty exactly when the input is all whitespace, and otherwise neither starts nor ends with whitespace |
| Text.TrimEndPadded | app.py:20 | whitespace after a string that does not end in whitespace is exactly what the right strip removes |
| Text.TrimStartPadded | app.py:20 | whitespace before a string that does not start with whitespace is exactly what the left strip removes |
| Text.TrimPadded | app.py:20 | `strip()` of a core surrounded by whitespace is that core |
| Text.TrimSplit | app.py:20 | `strip()` returns a contiguous piece of its input with only whitespace on either side |
| Text.TrimUnpadded | app.py:20 | `strip()` leaves a string without outer whitespace unchanged |
| Text.TrimTwice | app.py:20 | `strip()` is idempotent |
| Text.IsSpace | app.py:20 | Python's `str.isspace()`, the whitespace set of both `strip()` and the regex class `\s`; its consequences are stated by TrimStart, TrimEnd and Trim |
| Text.UpperChar | app.py:30 | the upper-case form of one character as far as the marker test sees it; its effect is stated by MarkerUpper and UpperNoComma |
| Text.Upper | app.py:30 | `s.upper()`, character by character; stated by UpperAppend, UpperNoComma and MarkerUpper |
| Text.UpperAppend | app.py:30 | `upper()` distributes over concatenation |
| Text.UpperNoComma | app.py:30 | `upper()` never creates a comma |
| Text.Contains | app.py:30 | `sub in s` holds exactly when `sub` occurs in `s` at some index |
| Normalize.IsZip | app.py:23 | `cleaned.isdigit() and len(cleaned) == 5`, with ASCII digits; its branch is stated by NormalizeZip |
| Normalize.StripAtEnd | app.py:29 | `re.sub(r',\s*[A-Z]{2}$', '', t)` matched at the very end; stated by StripShape and StripAtSuffix |
| Normalize.StripStateSuffix | app.py:29 | the same substitution with `$` also matching before a final newline; StripTrimmed shows the newline case never arises on stripped text |
| Normalize.HasUSMarker | app.py:30 | `',US' in s.upper()`; stated by MarkerAt, MarkerAppended and NoCommaNoMarker |
| Normalize.NormalizeLocation | app.py:19-31 | the query sent for a location; stated by NormalizeHasMarker, NormalizeZip, NormalizeStripsState, NormalizeAppendIff, NormalizeShape and NoCommaAppended |
| Normalize.NormalizeStripped | app.py:22-31 | the rewrite applied after stripping; stated through NormalizeLocation's lemmas |
| Normalize.NoCommaAppended | app.py:20-31 | a stripped input without a comma is sent with ",US" appended, whether or not it counts as a zip code |
| Normalize.MarkerAppended | app.py:30-31 | once ",US" is appended, the marker test holds |
| Normalize.NormalizeHasMarker | app.py:20-31 | the query always contains ",US" once upper-cased |
| Normalize.MarkerAt | app.py:30 | a comma followed by u/U and s/S anywhere in the text satisfies the marker test |
| Normalize.MarkerUpper | app.py:30 | a comma, u/U, s/S upper-cases to ",US" |
| Normalize.NoCommaNoMarker | app.py:30 | text without a comma never satisfies the marker test |
| Normalize.StripAtSuffix | app.py:29 | when the text ends in a comma, whitespace and two capitals, the substitution leaves exactly what precedes the comma |
| Normalize.StripShape | app.py:29 | the substitution either leaves the text unchanged or removes a comma, whitespace and two capitals from its end |
| Normalize.StripTrimmed | app.py:20-29 | on stripped text, the end-of-line reading of `$` never applies |
| Normalize.NormalizeZip | app.py:20-24 | a stripped five-digit zip code is sent as itself plus ",US", eight characters in all |
| Normalize.NormalizeStripsState | app.py:26-31 | any other stripped input ending in a state suffix loses it, then gets ",US" unless what is left holds the marker |
| Normalize.NormalizeAppendIff | app.py:29-31 | outside the zip case, ",US" is appended if and only if the stripped text lacks the marker, and the text is sent unchanged if and only if it has it |
| Normalize.NormalizeShape | app.py:20-31 | the query is a prefix of the stripped input, possibly followed by ",US", so it is at most three characters longer |
| Normalize.NormalizeIgnoresOuterSpace | app.py:20 | stripping the input beforehand does not change the query |
| Normalize.StateDropped | app.py:26-31 | a stripped input ending in a comma, whitespace and two capitals loses them; ",US" is appended exactly when the rest lacks the marker |
| Normalize.StateReplaced | app.py:26-31 | a city without a comma followed by a state suffix becomes the city plus ",US" |
| Normalize.MarkerKept | app.py:20-31 | text that already holds the marker, is not a zip code and has no state suffix is only stripped |
| Normalize.ZipExample | app.py:22-24 | "97201" becomes "97201,US" |
| Normalize.StateExample | app.py:26-31 | "Portland, OR" becomes "Portland,US" |
| Normalize.ForeignCountryExample | app.py:29-31 | "Paris,FR" becomes "Paris,US" |
| Normalize.SpaceBeforeCommaExample | app.py:20-31 | "Portland , OR" becomes "Portland ,US" |
| Normalize.LowerCaseMarkerExample | app.py:29-31 | "Paris,usa" is sent unchanged |
| Normalize.FirstPassExample | app.py:20-31 | "A,USX , CA" becomes "A,USX " with its trailing space kept |
| Normalize.SecondPassExample | app.py:20-31 | "A,USX " becomes "A,USX" |
| Normalize.NotIdempotent | app.py:19-31 | normalizing the result of "A,USX , CA" a second time changes it |
| Fetch.NotFoundMessage | app.py:68 | the 404 message holds the location verbatim between its fixed lead and tail |
| Fetch.NotFoundMessageInjective | app.py:68 | different locations give different 404 messages |
| Fetch.Index | app.py:49-59 | `x[key]`, which raises unless `x` is an object holding `key`; stated through ReadReportSpec |
| Fetch.GetOr | app.py:50 | `x.get(key, default)`, which raises unless `x` is an object; stated through ReadReportSpec |
| Fetch.First | app.py:56-57 | `x[0]` on a list or a string, raising on anything else or when empty; stated through ReadReportSpec |
| Fetch.Numeric | app.py:51-58 | `round` and `- 32` succeed on numbers and booleans only; stated through ReadReportSpec |
| Fetch.AsString | app.py:56 | `.title()` exists on strings only; stated through ReadReportSpec |
| Fetch.ReadReport | app.py:47-62 | the result dictionary built field by field, aborting at the first lookup that raises; ReadReportSpec states when it succeeds and what it copies |
| Fetch.ReadReportSpec | app.py:47-62 | building the result dictionary succeeds exactly on a well-formed payload, and then copies each field, with `country` defaulting to "" |
| Fetch.Classify | app.py:42-80 | every failure comes without a suggestion |
| Fetch.FetchWeather | app.py:16-80 | `fetch_weather` never returns a failure with a suggestion |
| Fetch.ClassifySuccess | app.py:46-63 | success exactly on status 200 with a well-formed JSON payload, and the result then holds that payload's fields |
| Fetch.ClassifyNotFound | app.py:65-69 | a 404 gives the message quoting the location as passed in |
| Fetch.ClassifyOtherStatus | app.py:70-74 | any status other than 200 and 404 gives "Unable to fetch weather data. Please try again." |
| Fetch.ClassifyRaised | app.py:76-80 | an exception, a body that is not JSON or a malformed payload gives "Something went wrong. Please try again." |
| Fetch.FailureMessagesDistinct | app.py:65-80 | the three failure messages differ from each other |
| SearchRoute.FormLocation | app.py:92 | `request.form.get("location", "")`; its blank case is stated by Search and SearchBlankIgnoresProvider |
| SearchRoute.Search | app.py:89-102 | a suggestion is present exactly when the field is missing or blank, and then the result is the fixed blank-input failure |
| SearchRoute.SearchBlankIgnoresProvider | app.py:92-99 | a blank or missing field gives the same result whatever the provider would answer, so the provider is not consulted |
| SearchRoute.SearchPassesTrimmed | app.py:92-102 | any other field is stripped and passed to `fetch_weather`, whose query equals the normalization of the raw field and holds the marker |
| SearchRoute.SearchNotFound | app.py:92-101 | a 404 from the provider gives the message quoting the stripped field, not the normalized query |
| SearchRoute.SearchSuccess | app.py:92-102 | the route succeeds exactly when the field is not blank and the provider answers the normalized query with 200 and a well-formed payload |

## Left out

- The HTTP request itself is not modelled. This covers `requests.get`, the base URL, the API key taken from the environment, the `units` parameter and the five-second timeout. The provider is a function from query string to outcome.
- Latency measurement (`time.time()`, `response_time_ms`) is not modelled, because clocks are outside the model.
- Rounding of temperatures and wind speed, the Celsius conversion and the title-casing of the description are not modelled. The report holds the raw JSON values, and floating point is outside the model.
- Normalize.IsZip: `str.isdigit()` is taken to accept ASCII digits only. Python also accepts other Unicode digits, such as Arabic-Indic digits and superscripts, so for five such digits the model takes the non-zip branch where Python takes the zip branch. The query comes out the same either way: such a string has no comma, so NoCommaAppended gives it ",US" appended, as the zip branch does.
- Text.Upper: ASCII small letters a-z are upper-cased, ß (U+00DF) becomes "SS", ſ (U+017F) becomes "S", and ﬅ (U+FB05) and ﬆ (U+FB06) become "ST"; every other character is kept as it is. No other character's upper-case form contains a ',', 'U' or 'S', so the marker test, the only use of `upper()`, is exact, but this is not a full `str.upper()`.
- Fetch.ReadReportSpec, Fetch.ClassifySuccess, Fetch.ClassifyRaised and SearchRoute.SearchSuccess: a `temp` or `feels_like` reading that is a JSON integer too large for a float makes the Celsius conversion raise `OverflowError` in Python, so the source returns "Something went wrong". Since numbers are kept as text, the model counts such a payload as well-formed and the result as a success.
- The form is modelled as a map from field name to its first value. Flask's multi-valued form and its decoding are not modelled.
- Rendering the result with `jsonify`, the index page, Flask routing and the `__main__` start-up block are not modelled, because they are framework and I/O code.
