# Travel planner: place lookup and prompt assembly, in Dafny

The travel planner is a Streamlit page that asks for a destination, a trip
length, a budget and interests, looks up attractions through the Google Places
text-search API, and has a prompt builder for a generative model. Two pieces of
it are deterministic, and this project models and verifies them. They are
independent: app.py never calls the prompt builder.

1. **Place lookup (app.py).** `get_places_data` sends the query
   "top attractions in <city>". On an "OK" response it keeps the first five
   results and renders each as `"<name> (Rating: <rating>)"`, with "N/A" for a
   missing rating. It returns those strings with the raw response. Any other
   status gives an empty list with the raw response. An exception gives an empty
   list with `{}`. Before any lookup, the page checks the configured key: an
   empty key or the placeholder key shows an error and makes no request.
   Otherwise the page looks the destination up and either lists the places
   found or shows a warning with the raw data.
   - `Places.GetPlacesData` is a method with the source's loop that appends to
     `places`. It is proved equal to the specification function `Places.Lookup`.
   - The HTTP call is a function parameter `service: Request -> Fetch`, so the
     request that is sent can be stated.
   - `Fetch.CallFailed` stands for every exception raised by `requests.get` or
     `response.json()`.
   - A missing `status` key is an absent value, as with `dict.get`.
   - A missing `results` or `name` key is a `KeyError`. The model keeps that
     error path: it ends in the `except` branch.
   - `Places.Submit` is the key guard and the display branch. It also records
     the requests sent, so "no lookup without a key" becomes "no request".

2. **Prompt assembly (prompts.py).** `create_travel_prompt` joins four sections
   with blank lines, in this order: persona, trip details, grounding data,
   output format.
   - Each section is a triple-quoted literal. `Prompts.Block` rebuilds such a
     literal from its lines: each line is preceded by a newline and four spaces,
     and the section ends with that same break. Each section's text is the
     source's, trailing spaces included.
   - Interests are joined with ", " (`Text.Join`).
   - The duration is rendered as Python's `str(int)` (`PyFormat.IntToString`).
   - The place list is rendered as Python's `str(list)`: brackets around the
     items' `repr`, separated by ", " (`PyFormat.ListRepr`).
   - `CreateTravelPrompt` is a Dafny function, so equal inputs give equal
     prompts by construction.

Further facts about the code that the model keeps:
- The grounding section is the same template for every place list; an empty
  list renders as `[]`.
- The lookup keeps at most 5 results; the cap is a constant.
- Each entry carries only the name and the rating.
- Nothing calls the generative model.

## Model

| member | source | states |
|---|---|---|
| `Places.GetPlacesData` | app.py:28-58 | The method's looping implementation returns exactly the place list and raw data that `Lookup` assigns to the service's answer to `SearchRequest(city, apiKey)`: the text-search request for "top attractions in <city>" with the key and language "en". |
| `Places.QueryRoundTrip` | app.py:34 | The query is exactly "top attractions in " followed by the city. The city reads back from it, and no other query reads back as that city. |
| `Places.EntryLayout` | app.py:50-52 | An entry is the name, then " (Rating: ", then the rating, or "N/A" when the result has none, then ")". |
| `Places.RenderAllSpec` | app.py:49-52 | Rendering the kept results succeeds exactly when every one has a name. Then there is one entry per result, in order, and entry i is built from result i. |
| `Places.LookupCallFailed` | app.py:56-58 | An exception gives no places and `{}` as raw data. |
| `Places.LookupNotOk` | app.py:46-55 | A status other than exactly "OK", or a missing one, gives no places, and the response is returned unchanged. |
| `Places.LookupOk` | app.py:46-53 | With status "OK" and named results, there are min(5, number of results) places. Entry i is built from result i, and the response is returned unchanged. |
| `Places.LookupKeyError` | app.py:49-58 | With status "OK" but no `results` key, or a kept result without `name`, the caught KeyError gives no places and `{}`. |
| `Places.LookupFinds` | app.py:41-58 | The place list is non-empty exactly when the call succeeded with status "OK", at least one result, and a name on every kept result. |
| `Places.SubmitWithoutKey` | app.py:61-63 | An empty or placeholder key gives the configuration error, and no request is sent. |
| `Places.SubmitWithKey` | app.py:64-84 | Any other key sends exactly one request, for the destination with that key. The screen lists the places and their count exactly when there are places. Otherwise it warns and shows the raw data. |
| `Places.ShippedKeyRejected` | app.py:62 | With the key as configured at app.py:8, which is the placeholder, every submission ends at the configuration error. |
| `Prompts.PromptSections` | prompts.py:48 | The prompt is the persona, the trip details, the grounding section and the output format, at consecutive positions with "\n\n" between neighbours and nothing else. The persona and output format are constants, so they open and close every prompt. |
| `Prompts.TripDetailsContents` | prompts.py:14-20 | The trip details contain the destination, "<duration> days" and the budget verbatim. The section ends with the interests line: the interests joined by ", ". |
| `Prompts.NoInterests` | prompts.py:19 | With no interests, the interests line is the bare label. |
| `Prompts.GroundingContents` | prompts.py:24-31 | For every place list, the empty one included, the grounding section opens with its title. It names the destination and contains the rendered list on a line of its own. |
| `Prompts.EmptyPlaceList` | prompts.py:24-31 | An empty place list still yields the grounding section, with `[]` on the place line. |
| `Prompts.PromptMentionsTrip` | prompts.py:1-50 | The prompt contains the destination, "<duration> days", the budget, the joined interests and the rendered list. It contains every place that Python's repr shows verbatim. |
| `Prompts.OutputFormatSlots` | prompts.py:34-45 | The output format names the Morning, Lunch, Afternoon and Evening slots. |
| `Prompts.IstanbulScenario` | prompts.py:1-50 | For Istanbul, 3 days, Moderate, History and Food, with two places found, the prompt contains "Istanbul", "3 days", "Moderate", "History, Food" and both place strings. |
| `Text.JoinAt` | prompts.py:19 | The items of `sep.join(xs)` tile it in input order, with `sep` between neighbours and nothing else. The last item ends the string. |
| `Text.JoinContainsItems` | prompts.py:19 | Every item of a join occurs in it. |
| `PyFormat.NatToStringDigits` | prompts.py:17 | `str(n)` for n >= 0 is a non-empty run of decimal digits, with no leading zero, that denotes n. |
| `PyFormat.IntToStringRoundTrip` | prompts.py:17 | The decimal rendering of any integer duration reads back as that integer. |
| `PyFormat.EscapeUnchanged` | prompts.py:27 | Text with nothing to escape passes through repr's escaping unchanged. |
| `PyFormat.StrReprVerbatim` | prompts.py:27 | A string with no backslash, no ASCII control character, and at most one kind of quote is shown by repr as its text between two quotes. |
| `PyFormat.ListReprContains` | prompts.py:27 | Every item that repr shows verbatim occurs, as written, in the rendered list. |

## Left out

- Streamlit calls are not modelled: page setup, sidebar widgets, and the error, info, success, warning and JSON displays. They are UI rendering and script re-execution. `Screen` records only which display is chosen and the data it shows.
- The sidebar's widget ranges are not modelled: the duration slider from 1 to 7, the budget and interest options. `CreateTravelPrompt` takes any integer duration and any strings, as the function does.
- The text of the exception shown at app.py:57 is not modelled. The exception is only the `CallFailed` alternative.
- `requests.get` and `response.json()` are not modelled. They are the network and a library's JSON decoder. They become the `service` parameter.
- A body that is not a JSON object ends in the same `except` branch. So does a `results` value that is neither a list nor the empty string (an empty string slices to itself, the loop runs zero times and the response is returned). `CallFailed` stands for these; results are always a list in the model.
- Ratings are opaque, already-rendered strings. Python's float formatting is not modelled. A JSON `null` rating would render as "None", which is the string to pass.
- Names are strings. A non-string `name` would be rendered by `str()`, which is not modelled.
- `PyFormat.EscapeChar` handles the ASCII characters exactly as Python's `repr` does. It treats every non-ASCII character as printable. Python would escape the ones Unicode calls non-printable, such as U+00A0.
- Prompts.PromptMentionsTrip: a place appears verbatim only if repr shows it verbatim. A place containing a backslash, an ASCII control character, or both kinds of quote appears escaped, so no containment is claimed for it. Because `PyFormat.EscapeChar` treats every non-ASCII character as printable, the lemma does claim containment for places holding non-printable non-ASCII characters (U+0085, U+00A0, U+2028 and others), which Python's repr escapes; for those places the claim does not hold of the real prompt.
- The generative-model client imported at app.py:2 is never called, so there is nothing to model.
