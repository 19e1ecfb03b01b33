/** The deterministic core of the Astronomy Picture of the Day client
    `get_nasa_apod`: building the query parameters from the caller's options,
    shaping a failed or rejected request into `ErrorDetails`, and mapping a
    successful JSON body to a batch of `NASAAPOD` records. The HTTP call and
    JSON decoding are not modelled; their outcome is an input (`Upstream`). */
module NasaApod {
  import opened Json

  datatype Option<T> = None | Some(value: T)

  // ---------------------------------------------------------------------
  // Query options and request parameters
  // ---------------------------------------------------------------------

  /** The arguments of `get_nasa_apod`. */
  datatype QueryOptions = QueryOptions(
    apiKey: string,
    apodDate: Option<string>,
    startDate: Option<string>,
    endDate: Option<string>,
    count: Option<int>,
    thumbs: bool)

  /** Python truthiness of an `Optional[str]` argument: `None` and `""` are falsy. */
  predicate StrGiven(o: Option<string>)
  {
    o.Some? && o.value != ""
  }

  /** Python truthiness of an `Optional[int]` argument: `None` and `0` are falsy. */
  predicate CountGiven(o: Option<int>)
  {
    o.Some? && o.value != 0
  }

  /** A value in the query dictionary handed to the HTTP library. */
  datatype ParamValue = PStr(s: string) | PInt(i: int) | PBool(b: bool)

  type Params = map<string, ParamValue>

  /** The query dictionary the client must send for options `q`: the key and
      the thumbnail flag always, then the first request mode that is set
      (a sample count, a single date, a date range), with the end of a range
      only alongside its start. */
  ghost predicate FollowsPrecedence(q: QueryOptions, p: Params)
  {
    && p.Keys <= {"api_key", "thumbs", "count", "date", "start_date", "end_date"}
    && "api_key" in p && p["api_key"] == PStr(q.apiKey)
    && "thumbs" in p && p["thumbs"] == PBool(q.thumbs)
    && ("count" in p <==> CountGiven(q.count))
    && ("count" in p ==> p["count"] == PInt(q.count.value))
    && ("date" in p <==> !CountGiven(q.count) && StrGiven(q.apodDate))
    && ("date" in p ==> p["date"] == PStr(q.apodDate.value))
    && ("start_date" in p <==> !CountGiven(q.count) && !StrGiven(q.apodDate) && StrGiven(q.startDate))
    && ("start_date" in p ==> p["start_date"] == PStr(q.startDate.value))
    && ("end_date" in p <==> "start_date" in p && StrGiven(q.endDate))
    && ("end_date" in p ==> p["end_date"] == PStr(q.endDate.value))
  }

  /** Builds the query dictionary in place, as the if/elif chain does. */
  method BuildParams(q: QueryOptions) returns (params: Params)
    ensures FollowsPrecedence(q, params)
  {
    params := map["api_key" := PStr(q.apiKey), "thumbs" := PBool(q.thumbs)];
    if CountGiven(q.count) {
      params := params["count" := PInt(q.count.value)];
    } else if StrGiven(q.apodDate) {
      params := params["date" := PStr(q.apodDate.value)];
    } else if StrGiven(q.startDate) {
      params := params["start_date" := PStr(q.startDate.value)];
      if StrGiven(q.endDate) {
        params := params["end_date" := PStr(q.endDate.value)];
      }
    }
  }

  /** The precedence rule leaves no choice: it fixes the whole dictionary. */
  lemma PrecedenceDeterminesParams(q: QueryOptions, p1: Params, p2: Params)
    requires FollowsPrecedence(q, p1) && FollowsPrecedence(q, p2)
    ensures p1 == p2
  {
  }

  /** At most one request mode is ever sent, and a range end never travels
      without its start. */
  lemma AtMostOneMode(q: QueryOptions, p: Params)
    requires FollowsPrecedence(q, p)
    ensures "count" in p ==> "date" !in p && "start_date" !in p && "end_date" !in p
    ensures "date" in p ==> "start_date" !in p && "end_date" !in p
    ensures "end_date" in p ==> "start_date" in p
  {
  }

  /** If no mode option is set, only the key and the flag are sent (the
      server then answers for today). */
  lemma NoModeSendsOnlyKeyAndFlag(q: QueryOptions, p: Params)
    requires FollowsPrecedence(q, p)
    requires !CountGiven(q.count) && !StrGiven(q.apodDate) && !StrGiven(q.startDate)
    ensures p == map["api_key" := PStr(q.apiKey), "thumbs" := PBool(q.thumbs)]
  {
  }

  // ---------------------------------------------------------------------
  // Records and results
  // ---------------------------------------------------------------------

  /** One `NASAAPOD` record. Each field holds whatever the JSON item held
      (or the default); `JNull` is Python's `None`. */
  datatype Apod = Apod(
    apodTitle: JsonValue,
    explanation: JsonValue,
    date: JsonValue,
    multimediaLink: JsonValue,
    hdMultimediaLink: JsonValue,
    videoThumbnailUrl: JsonValue,
    copyrightPersonName: JsonValue)

  /** What the client returns: a batch of records, or an error with a
      status code and a message. */
  datatype ApodResult =
    | ApodResponse(nasaApods: seq<Apod>)
    | ErrorDetails(statusCode: int, message: JsonValue)

  /** What the single GET produced: an exception from the HTTP library or
      from JSON decoding (with its description), or a status and a parsed body. */
  datatype Upstream =
    | TransportFailure(cause: string)
    | Response(statusCode: int, body: JsonValue)

  const StatusOk: int := 200
  const InternalServerError: int := 500
  const ConnectFailurePrefix: string := "Failed to connect or parse JSON: "
  const UnknownError: string := "Unknown error"

  // ---------------------------------------------------------------------
  // Error shaping
  // ---------------------------------------------------------------------

  /** The error body on which the message expression does not raise: either
      `msg` is truthy (and the `or` stops there), or the `error` entry, if
      any, is an object that `.get("message", ...)` can be applied to. */
  predicate ErrorBodyHandled(body: map<string, JsonValue>)
  {
    Truthy(Get(body, "msg", JNull)) || "error" !in body || body["error"].JObject?
  }

  /** The message of a rejection: a truthy `msg`, else the nested
      `error.message` when there is one, else the fallback. */
  function ErrorMessage(body: map<string, JsonValue>): (r: JsonValue)
    requires ErrorBodyHandled(body)
    ensures "msg" in body && Truthy(body["msg"]) ==> r == body["msg"]
    ensures !("msg" in body && Truthy(body["msg"])) && "error" in body && "message" in body["error"].fields
            ==> r == body["error"].fields["message"]
    ensures !("msg" in body && Truthy(body["msg"])) && ("error" !in body || "message" !in body["error"].fields)
            ==> r == JString(UnknownError)
    // The fallback is truthy, so a falsy message can only be a falsy nested `error.message`.
    ensures !Truthy(r) ==> "error" in body && "message" in body["error"].fields && r == body["error"].fields["message"]
  {
    var msg := Get(body, "msg", JNull);
    if Truthy(msg) then msg
    else Get(Get(body, "error", JObject(map[])).fields, "message", JString(UnknownError))
  }

  // ---------------------------------------------------------------------
  // Response normalisation and entry mapping
  // ---------------------------------------------------------------------

  /** A list body is processed as it is; any other body as a one-item list.
      The mapper can then run without raising exactly when the body is an
      object or a list of objects. */
  function RawDataList(body: JsonValue): (r: seq<JsonValue>)
    ensures AllObjects(r) <==> body.JObject? || (body.JArray? && AllObjects(body.elems))
  {
    if body.JArray? then body.elems else assert [body][0] == body; [body]
  }

  /** The items on which the mapper does not raise: all of them are objects. */
  predicate AllObjects(items: seq<JsonValue>)
  {
    forall i :: 0 <= i < |items| ==> items[i].JObject?
  }

  /** The outcomes the client turns into a result without raising. */
  predicate Handled(u: Upstream)
  {
    match u
    case TransportFailure(_) => true
    case Response(status, body) =>
      if status != StatusOk then body.JObject? && ErrorBodyHandled(body.fields)
      else AllObjects(RawDataList(body))
  }

  const ImageType: JsonValue := JString("image")
  const VideoType: JsonValue := JString("video")

  /** The HD link and the video thumbnail are never both set. */
  predicate MediaLinksExclusive(a: Apod)
  {
    a.hdMultimediaLink == JNull || a.videoThumbnailUrl == JNull
  }

  /** Maps one JSON item to a `NASAAPOD` record. */
  function ToApod(item: map<string, JsonValue>): (r: Apod)
    ensures "title" !in item ==> r.apodTitle == JString("Untitled")
    ensures "explanation" !in item ==> r.explanation == JString("")
    ensures "date" !in item ==> r.date == JString("")
    ensures "url" !in item ==> r.multimediaLink == JString("")
    ensures "copyright" !in item ==> r.copyrightPersonName == JNull
    ensures forall k :: k in item ==>
      (k == "title" ==> r.apodTitle == item[k]) &&
      (k == "explanation" ==> r.explanation == item[k]) &&
      (k == "date" ==> r.date == item[k]) &&
      (k == "url" ==> r.multimediaLink == item[k]) &&
      (k == "copyright" ==> r.copyrightPersonName == item[k])
    ensures r.hdMultimediaLink != JNull ==> Get(item, "media_type", JNull) == ImageType && "hdurl" in item && r.hdMultimediaLink == item["hdurl"]
    ensures r.videoThumbnailUrl != JNull ==> Get(item, "media_type", JNull) == VideoType && "thumbnail_url" in item && r.videoThumbnailUrl == item["thumbnail_url"]
    ensures Get(item, "media_type", JNull) == ImageType ==> r.hdMultimediaLink == Get(item, "hdurl", JNull)
    ensures Get(item, "media_type", JNull) == VideoType ==> r.videoThumbnailUrl == Get(item, "thumbnail_url", JNull)
    ensures MediaLinksExclusive(r)
  {
    var mType := Get(item, "media_type", JNull);
    Apod(
      apodTitle := Get(item, "title", JString("Untitled")),
      explanation := Get(item, "explanation", JString("")),
      date := Get(item, "date", JString("")),
      multimediaLink := Get(item, "url", JString("")),
      hdMultimediaLink := if mType == ImageType then Get(item, "hdurl", JNull) else JNull,
      videoThumbnailUrl := if mType == VideoType then Get(item, "thumbnail_url", JNull) else JNull,
      copyrightPersonName := Get(item, "copyright", JNull))
  }

  /** A JSON item that the mapper turns into `a`, when `a` keeps the media
      links exclusive. */
  function ItemFor(a: Apod): map<string, JsonValue>
  {
    var base := map[
      "title" := a.apodTitle,
      "explanation" := a.explanation,
      "date" := a.date,
      "url" := a.multimediaLink,
      "copyright" := a.copyrightPersonName];
    if a.hdMultimediaLink != JNull then
      base["media_type" := ImageType]["hdurl" := a.hdMultimediaLink]
    else if a.videoThumbnailUrl != JNull then
      base["media_type" := VideoType]["thumbnail_url" := a.videoThumbnailUrl]
    else
      base
  }

  /** The records the mapper can produce are exactly those whose HD link and
      video thumbnail are not both set. */
  lemma MapperImage(a: Apod)
    ensures (exists item :: ToApod(item) == a) <==> MediaLinksExclusive(a)
  {
    if MediaLinksExclusive(a) {
      var item := ItemFor(a);
      assert ToApod(item) == a;
    }
  }

  /** Appends one record per item, in order, as the `for` loop does. */
  method MapEntries(items: seq<JsonValue>) returns (apods: seq<Apod>)
    requires AllObjects(items)
    ensures |apods| == |items|
    ensures forall i :: 0 <= i < |items| ==> apods[i] == ToApod(items[i].fields)
  {
    apods := [];
    for i := 0 to |items|
      invariant |apods| == i
      invariant forall k :: 0 <= k < i ==> apods[k] == ToApod(items[k].fields)
    {
      apods := apods + [ToApod(items[i].fields)];
    }
  }

  // ---------------------------------------------------------------------
  // The whole call
  // ---------------------------------------------------------------------

  /** The result the client must return for outcome `u`. */
  ghost predicate ShapedFrom(u: Upstream, r: ApodResult)
    requires Handled(u)
  {
    match u
    case TransportFailure(cause) =>
      r == ErrorDetails(InternalServerError, JString(ConnectFailurePrefix + cause))
    case Response(status, body) =>
      if status != StatusOk then
        r == ErrorDetails(status, ErrorMessage(body.fields))
      else
        var items := RawDataList(body);
        && r.ApodResponse?
        && |r.nasaApods| == |items|
        && forall i :: 0 <= i < |items| ==> r.nasaApods[i] == ToApod(items[i].fields)
  }

  /** Turns the outcome of the GET into a result. */
  method ShapeResponse(u: Upstream) returns (r: ApodResult)
    requires Handled(u)
    ensures ShapedFrom(u, r)
  {
    match u
    case TransportFailure(cause) =>
      r := ErrorDetails(InternalServerError, JString(ConnectFailurePrefix + cause));
    case Response(status, body) =>
      if status != StatusOk {
        r := ErrorDetails(status, ErrorMessage(body.fields));
      } else {
        var rawDataList := RawDataList(body);
        var nasaApods := MapEntries(rawDataList);
        r := ApodResponse(nasaApods);
      }
  }

  /** `get_nasa_apod`: the parameters it sends and the result it returns,
      given what the one GET produced. */
  method GetNasaApod(q: QueryOptions, u: Upstream) returns (params: Params, r: ApodResult)
    requires Handled(u)
    ensures FollowsPrecedence(q, params)
    ensures ShapedFrom(u, r)
  {
    params := BuildParams(q);
    r := ShapeResponse(u);
  }

  // ---------------------------------------------------------------------
  // Properties of the result
  // ---------------------------------------------------------------------

  /** The result is a function of the outcome. */
  lemma ShapedFromDeterministic(u: Upstream, r1: ApodResult, r2: ApodResult)
    requires Handled(u) && ShapedFrom(u, r1) && ShapedFrom(u, r2)
    ensures r1 == r2
  {
  }

  /** A batch comes back exactly when the server answered 200. */
  lemma SuccessIffOk(u: Upstream, r: ApodResult)
    requires Handled(u) && ShapedFrom(u, r)
    ensures r.ApodResponse? <==> u.Response? && u.statusCode == StatusOk
  {
  }

  /** A transport or decoding failure gives status 500 and a message made
      of the fixed prefix followed by the cause. */
  lemma TransportFailureMessage(cause: string, r: ApodResult)
    requires ShapedFrom(TransportFailure(cause), r)
    ensures r.ErrorDetails? && r.statusCode == InternalServerError
    ensures r.message.JString?
    ensures |r.message.s| == |ConnectFailurePrefix| + |cause|
    ensures r.message.s[..|ConnectFailurePrefix|] == ConnectFailurePrefix
    ensures r.message.s[|ConnectFailurePrefix|..] == cause
  {
  }

  /** A rejection passes the server's status code through. */
  lemma RejectionKeepsStatus(status: int, body: JsonValue, r: ApodResult)
    requires status != StatusOk && Handled(Response(status, body))
    requires ShapedFrom(Response(status, body), r)
    ensures r.ErrorDetails? && r.statusCode == status
  {
  }

  /** A list body yields one record per item in the same order; any other
      body yields exactly one record. */
  lemma BatchSize(body: JsonValue, r: ApodResult)
    requires Handled(Response(StatusOk, body)) && ShapedFrom(Response(StatusOk, body), r)
    ensures r.ApodResponse?
    ensures body.JArray? ==>
      (&& |r.nasaApods| == |body.elems|
       && forall i :: 0 <= i < |body.elems| ==> r.nasaApods[i] == ToApod(body.elems[i].fields))
    ensures !body.JArray? ==> body.JObject? && r.nasaApods == [ToApod(body.fields)]
  {
  }

  /** No record of a batch has both an HD link and a video thumbnail. */
  lemma BatchMediaExclusive(u: Upstream, r: ApodResult)
    requires Handled(u) && ShapedFrom(u, r) && r.ApodResponse?
    ensures forall a :: a in r.nasaApods ==> MediaLinksExclusive(a)
  {
  }

  // ---------------------------------------------------------------------
  // Worked cases
  // ---------------------------------------------------------------------

  /** An image item keeps its HD link and has no thumbnail. */
  lemma ImageItemExample()
    ensures var a := ToApod(map[
              "title" := JString("X"), "date" := JString("2026-01-18"), "url" := JString("http://u"),
              "media_type" := ImageType, "hdurl" := JString("http://h")]);
            a.hdMultimediaLink == JString("http://h") && a.videoThumbnailUrl == JNull
  {
  }

  /** A video item keeps its thumbnail and has no HD link, even if one is given. */
  lemma VideoItemExample()
    ensures var a := ToApod(map[
              "title" := JString("X"), "media_type" := VideoType,
              "hdurl" := JString("http://h"), "thumbnail_url" := JString("http://t")]);
            a.videoThumbnailUrl == JString("http://t") && a.hdMultimediaLink == JNull
  {
  }

  /** A 429 whose body carries only `error.message` reports that message. */
  lemma RateLimitedExample(r: ApodResult)
    requires ShapedFrom(Response(429, JObject(map["error" := JObject(map["message" := JString("rate limited")])])), r)
    ensures r == ErrorDetails(429, JString("rate limited"))
  {
  }

  /** An empty `msg` falls through to `error.message`, and an empty nested
      message is returned as it is rather than replaced by the fallback. */
  lemma EmptyNestedMessageKept()
    ensures ErrorMessage(map["msg" := JString(""), "error" := JObject(map["message" := JString("")])]) == JString("")
  {
  }

  /** The defaults apply to missing keys only: a `null` title stays `null`. */
  lemma NullTitleKept()
    ensures ToApod(map["title" := JNull]).apodTitle == JNull
    ensures ToApod(map[]).apodTitle == JString("Untitled")
  {
  }

  /** A range end passed with a single date is dropped. */
  lemma EndDateDroppedUnderSingleDate(p: Params)
    requires FollowsPrecedence(QueryOptions("DEMO_KEY", Some("2026-01-18"), None, Some("2026-01-20"), None, false), p)
    ensures p == map["api_key" := PStr("DEMO_KEY"), "thumbs" := PBool(false), "date" := PStr("2026-01-18")]
  {
  }

  /** A zero count is falsy, so the single date is sent instead. */
  lemma ZeroCountIgnored(p: Params)
    requires FollowsPrecedence(QueryOptions("DEMO_KEY", Some("2026-01-18"), None, None, Some(0), true), p)
    ensures "count" !in p && "date" in p && p["date"] == PStr("2026-01-18")
  {
  }
}
