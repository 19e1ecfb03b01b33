# NASA APOD client core in Dafny

This project models the deterministic core of `get_nasa_apod`, a client for the NASA
Astronomy Picture of the Day API. The core has three parts:

- building the query dictionary from the caller's options, under a fixed precedence:
  a truthy `count` wins, then a truthy `apod_date`, then a truthy `start_date`, which
  brings a truthy `end_date` with it; `api_key` and `thumbs` are always sent;
- shaping a failed request into `ErrorDetails`: a transport or JSON decoding failure
  gives status 500 and a prefixed message; a non-200 answer passes its status through,
  with the message taken from `msg`, else `error.message`, else `"Unknown error"`;
- normalising a 200 body to a list and mapping each item to a `NASAAPOD` record, with
  defaults for missing keys and the HD link and the video thumbnail kept only for the
  matching media type.

Files:

- `json.dfy` (module `Json`): parsed JSON values, Python truthiness and `dict.get`.
- `nasa_apod.dfy` (module `NasaApod`): the records (`Apod`, `ApodResult`), the
  precedence specification `FollowsPrecedence` and the method `BuildParams` that builds
  the dictionary step by step, plus the error message expression `ErrorMessage`. It
  also holds the item mapper `ToApod`, the loop `MapEntries`, the result specification
  `ShapedFrom` with the methods `ShapeResponse` and `GetNasaApod`, and the lemmas.

Modelling choices:

- The single HTTP GET and the JSON decoding are an input of type `Upstream`. That input is
  either `TransportFailure(cause)` (any exception from the request or from `.json()`, with
  its `str(e)`) or `Response(status, body)` with the parsed body.
- Python's `None` and JSON `null` are the same value after parsing, and both are `JNull`.
  The record fields are `JsonValue`s, because `.get` returns whatever the JSON holds. A
  present `"title": null` therefore stays `null`: the defaults apply only to missing keys.
- Truthiness follows Python: an empty `msg` or a zero `count` counts as "not set".
- The source raises `AttributeError` in three cases. A non-200 body that is not an object
  raises. So does a falsy `msg` next to an `error` entry that is not an object. So does a
  200 body item that is not an object. The precondition `Handled` excludes exactly these
  cases; no result is invented for them.

Behaviours of `get_nasa_apod` that are easy to miss:

- The `msg` field is used only when it is truthy, not merely present.
- The nested `error.message` is used whenever it is present, even when it is empty or
  `null`. The fallback applies only when it is absent (`EmptyNestedMessageKept`).
- When no mode option is set, no mode parameter is sent at all, so the rule is "at most
  one mode", not "exactly one" (`NoModeSendsOnlyKeyAndFlag`).
- A non-200 answer whose body is not JSON takes the decoding-failure path and reports
  500, not the server's status. `.json()` runs before the status is examined.

## Model

| member | source | states |
|---|---|---|
| `NasaApod.BuildParams` | nasa_tools/nasa_apod.py:69-77 | the dictionary always holds `api_key` and `thumbs` with the caller's values. It holds `count` exactly when count is truthy, `date` exactly when count is falsy and the date truthy, and `start_date` exactly when both are falsy and the start truthy. `end_date` is present exactly when `start_date` is and the end is truthy. Each value is the caller's, and there are no other keys |
| `NasaApod.PrecedenceDeterminesParams` | nasa_tools/nasa_apod.py:69-77 | the precedence rule fixes the whole dictionary: two dictionaries that both follow it for the same options are equal |
| `NasaApod.AtMostOneMode` | nasa_tools/nasa_apod.py:70-77 | with `count` none of `date`, `start_date`, `end_date` is sent; with `date` neither range key is sent; `end_date` never appears without `start_date` |
| `NasaApod.NoModeSendsOnlyKeyAndFlag` | nasa_tools/nasa_apod.py:69-77 | when no mode option is truthy the dictionary is exactly `{api_key, thumbs}` |
| `NasaApod.EndDateDroppedUnderSingleDate` | nasa_tools/nasa_apod.py:72-77 | an end date passed with a single date is dropped; only the date is sent |
| `NasaApod.ZeroCountIgnored` | nasa_tools/nasa_apod.py:70-73 | a count of 0 is falsy, so the single date is sent and `count` is not |
| `NasaApod.ErrorMessage` | nasa_tools/nasa_apod.py:91 | a truthy `msg` is the message; otherwise `error.message` when present (whatever its value); otherwise `"Unknown error"`. A falsy message can only come from a present nested `error.message` |
| `NasaApod.EmptyNestedMessageKept` | nasa_tools/nasa_apod.py:91 | an empty `msg` falls through, and an empty `error.message` is returned rather than the fallback |
| `NasaApod.RateLimitedExample` | nasa_tools/nasa_apod.py:89-92 | status 429 with body `{"error": {"message": "rate limited"}}` gives `ErrorDetails(429, "rate limited")` |
| `NasaApod.RawDataList` | nasa_tools/nasa_apod.py:95-99 | the normalised list holds only objects, so the loop's `item.get` does not raise, exactly when the body is an object or a list of objects |
| `NasaApod.ToApod` | nasa_tools/nasa_apod.py:99-109 | present keys are copied. Missing keys get defaults: `title` becomes "Untitled"; `explanation`, `date` and `url` become ""; `copyright` becomes None. The HD link is non-None only for `media_type == "image"`, and is then `hdurl`. The thumbnail is non-None only for `"video"`, and is then `thumbnail_url`. The two are never both set |
| `NasaApod.MapperImage` | nasa_tools/nasa_apod.py:99-109 | a record is produced by the mapper for some item if and only if its HD link and thumbnail are not both set |
| `NasaApod.ImageItemExample` | nasa_tools/nasa_apod.py:107-108 | an image item keeps `hdurl` and has no thumbnail |
| `NasaApod.VideoItemExample` | nasa_tools/nasa_apod.py:107-108 | a video item keeps `thumbnail_url` and drops a given `hdurl` |
| `NasaApod.NullTitleKept` | nasa_tools/nasa_apod.py:102 | a missing title becomes "Untitled"; a `null` title stays `null` |
| `NasaApod.MapEntries` | nasa_tools/nasa_apod.py:97-110 | one record per item, in the same order, each the mapping of its item |
| `NasaApod.ShapeResponse` | nasa_tools/nasa_apod.py:83-112 | the result has the shape fixed by `ShapedFrom`. A transport failure gives `ErrorDetails(500, prefix + cause)`. A non-200 status gives `ErrorDetails(status, message)`. A 200 gives the mapped batch of the normalised body |
| `NasaApod.GetNasaApod` | nasa_tools/nasa_apod.py:69-112 | the parameters follow the precedence rule and the result is shaped from the upstream outcome |
| `NasaApod.ShapedFromDeterministic` | nasa_tools/nasa_apod.py:83-112 | the result is a function of the upstream outcome |
| `NasaApod.SuccessIffOk` | nasa_tools/nasa_apod.py:83-112 | a batch is returned if and only if the server answered with status 200 |
| `NasaApod.TransportFailureMessage` | nasa_tools/nasa_apod.py:83-87 | a transport or decoding failure gives status 500 and a message that is "Failed to connect or parse JSON: " followed by the cause |
| `NasaApod.RejectionKeepsStatus` | nasa_tools/nasa_apod.py:89-92 | a non-200 status is passed through as the error's status code |
| `NasaApod.BatchSize` | nasa_tools/nasa_apod.py:95-112 | a list body gives exactly as many records as items, in order; any other body gives exactly one record |
| `NasaApod.BatchMediaExclusive` | nasa_tools/nasa_apod.py:97-110 | no record of a returned batch has both an HD link and a video thumbnail |

## Left out

- The `requests.get` call, its URL and its 10-second timeout (nasa_tools/nasa_apod.py:81) are network I/O. Their outcome is the `Upstream` input, and the model does not relate that outcome to the parameters sent.
- JSON decoding (`api_response.json()`) comes from a foreign library. The parsed value is part of the input, and a decoding failure is a `TransportFailure`.
- `load_dotenv()`, `os.getenv("NASA_API_KEY")` and the `"DEMO_KEY"` fallback are environment I/O. The key is a plain field of `QueryOptions`.
- The LangChain `@tool` decorator wraps the function without logic of its own. The module-level `invoke` call and `print` are script side effects.
- The uncaught `AttributeError` cases listed above are excluded by the precondition `Handled`, not modelled as results.
- The distinction between Python `int` and `float` in JSON numbers is not kept: both are reals. Neither equality nor truthiness in the modelled code depends on it. Only finite numbers are modelled: the `NaN`, `Infinity` and `-Infinity` that Python's decoder also accepts have no `JsonValue`.
- Python values that JSON cannot express (arbitrary objects passed as arguments) are not modelled: the options have the types the signature declares.
