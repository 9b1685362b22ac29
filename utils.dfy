/**
 * The two helpers of src/utils.ts: turning a Notion URL into a page or
 * database ID, and `MakeRequest`, the single HTTP call every Notion request
 * goes through. The network (`node-fetch`) is a parameter: a function from
 * the URL and the options the request builds to what the network did.
 */
module Utils {
  import opened Wrappers
  import opened JsString

  const InvalidUrlMessage := "Invalid Notion URL provided"

  /**
   * `NotionUrlToId(url)`: split on `/`, take the last segment, split that on
   * `-`, take the last piece, and keep what precedes the first `?`. A URL
   * without any `/` is rejected with an error. (The trailing `|| ""` of the
   * source turns an empty result into the empty string, so it changes nothing.)
   */
  function NotionUrlToId(url: string): (r: Result<string, string>)
    ensures r.Failure? <==> '/' !in url
    ensures r.Failure? ==> r.error == InvalidUrlMessage
    ensures r.Success? ==> '/' !in r.value && '-' !in r.value && '?' !in r.value
  {
    var parts := Split(url, '/');
    SplitHasSeveralPiecesIff(url, '/');
    if |parts| >= 2 then
      var segment := Last(parts);
      var pieces := Split(segment, '-');
      var queryParts := Split(Last(pieces), '?');
      PieceCharsInJoin(queryParts, '?', 0, '/');
      PieceCharsInJoin(queryParts, '?', 0, '-');
      PieceCharsInJoin(pieces, '-', |pieces| - 1, '/');
      Success(queryParts[0])
    else
      Failure(InvalidUrlMessage)
  }

  /**
   * Reference definition of the ID: the text before the first `?` of the text
   * after the last `-` of the text after the last `/`.
   */
  function IdOf(url: string): string
  {
    BeforeFirst(AfterLast(AfterLast(url, '/'), '-'), '?')
  }

  /** For every URL holding a `/`, `NotionUrlToId` returns `IdOf(url)`. */
  lemma NotionUrlToIdIsIdOf(url: string)
    requires '/' in url
    ensures NotionUrlToId(url) == Success(IdOf(url))
  {
    var segment := AfterLast(url, '/');
    var piece := AfterLast(segment, '-');
    assert Last(Split(url, '/')) == segment by {
      LastPieceIsAfterLast(url, '/');
    }
    assert Last(Split(segment, '-')) == piece by {
      LastPieceIsAfterLast(segment, '-');
    }
    assert Split(piece, '?')[0] == BeforeFirst(piece, '?') by {
      FirstPieceIsBeforeFirst(piece, '?');
    }
    assert NotionUrlToId(url) == Success(Split(Last(Split(Last(Split(url, '/')), '-')), '?')[0]) by {
      SplitHasSeveralPiecesIff(url, '/');
    }
  }

  /** The reference ID of a URL whose last segment has no `-` and no `?` is that segment. */
  lemma IdOfPlainSegment(base: string, segment: string)
    requires '/' !in segment && '-' !in segment && '?' !in segment
    ensures IdOf(base + "/" + segment) == segment
  {
    var url := base + "/" + segment;
    assert AfterLast(url, '/') == segment by {
      assert url[|url| - |segment|..] == segment;
      assert url[|url| - |segment| - 1] == '/';
      AfterLastUnique(url, '/', segment);
    }
    assert AfterLast(segment, '-') == segment by {
      assert segment[|segment| - |segment|..] == segment;
      AfterLastUnique(segment, '-', segment);
    }
  }

  /** A last segment with no `-` and no `?` is returned unchanged. */
  lemma PlainSegmentIsId(base: string, segment: string)
    requires '/' !in segment && '-' !in segment && '?' !in segment
    ensures NotionUrlToId(base + "/" + segment) == Success(segment)
  {
    var url := base + "/" + segment;
    assert url[|base|] == '/';
    NotionUrlToIdIsIdOf(url);
    IdOfPlainSegment(base, segment);
  }

  /** A URL ending in `/` gives the empty ID. */
  lemma TrailingSlashGivesEmptyId(base: string)
    ensures NotionUrlToId(base + "/") == Success("")
  {
    PlainSegmentIsId(base, "");
    assert base + "/" + "" == base + "/";
  }

  /**
   * The `-` split comes before the `?` split, so the piece after the last `-`
   * wins even when that `-` sits in the query string, after a `?`.
   */
  lemma LastDashDecidesId(base: string, head: string, tail: string)
    requires '/' !in head && '/' !in tail && '-' !in tail && '?' !in tail
    ensures NotionUrlToId(base + "/" + head + "-" + tail) == Success(tail)
  {
    var url := base + "/" + head + "-" + tail;
    assert url[|base|] == '/';
    NotionUrlToIdIsIdOf(url);
    IdOfLastDash(base, head, tail);
  }

  /** The reference ID of a URL whose last segment is `head-tail` is `tail`. */
  lemma IdOfLastDash(base: string, head: string, tail: string)
    requires '/' !in head && '/' !in tail && '-' !in tail && '?' !in tail
    ensures IdOf(base + "/" + head + "-" + tail) == tail
  {
    var url := base + "/" + head + "-" + tail;
    var segment := head + "-" + tail;
    assert AfterLast(url, '/') == segment by {
      assert url == base + "/" + segment;
      assert url[|url| - |segment|..] == segment;
      AfterLastUnique(url, '/', segment);
    }
    assert AfterLast(segment, '-') == tail by {
      assert segment[|segment| - |tail|..] == tail;
      AfterLastUnique(segment, '-', tail);
    }
  }

  /** For instance, the last segment `abc?v=1-2` yields `2`, not `abc`. */
  lemma DashInQueryDecidesId()
    ensures NotionUrlToId("notion.so/abc?v=1-2") == Success("2")
  {
    LastDashDecidesId("notion.so", "abc?v=1", "2");
    assert "notion.so" + "/" + "abc?v=1" + "-" + "2" == "notion.so/abc?v=1-2";
  }

  // ---------------------------------------------------------------------
  // MakeRequest

  /**
   * The `data` option: `null` (also what an omitted option defaults to), a
   * string, or any other value, which the request only ever hands to
   * `JSON.stringify`; `V` stands for such values.
   */
  datatype Data<V> = Null | Str(text: string) | Value(value: V)

  /** The request body: a string sent as given, or `JSON.stringify(data)`. */
  datatype Body<V> = Verbatim(text: string) | JsonOf(data: Data<V>)

  /** The options handed to `fetch`. */
  datatype FetchOptions<V> = FetchOptions(httpMethod: string, headers: map<string, string>, body: Option<Body<V>>)

  /** `RequestOptions` with the defaults of the source already applied. */
  datatype RequestOptions<V> = RequestOptions(
    httpMethod: string,
    url: string,
    message: string,
    data: Data<V>,
    headers: map<string, string>,
    raw: bool,
    returnError: bool)

  /**
   * What the network did with one call: `fetch` (or the dynamic import of
   * `node-fetch`) threw, or a response arrived with a status, a handle for
   * the raw response and the outcome of parsing its body as JSON
   * (`None` when `res.json()` rejects). `H` and `J` are the types of the
   * response handle and of parsed JSON.
   */
  datatype FetchOutcome<H, J> =
    | Thrown(message: string)
    | Responded(status: int, handle: H, json: Option<J>)

  /** The errors the request catches. */
  datatype RequestError =
    | NetworkError(message: string)   // thrown by the import or by fetch
    | HttpError(status: int)          // `HTTP error! status: <status>`
    | InvalidJson                     // thrown by `res.json()`

  /** What `MakeRequest` resolves to: parsed JSON, the raw response, the error, or `false`. */
  datatype Reply<H, J> = Json(value: J) | RawResponse(response: H) | Error(error: RequestError) | False

  /**
   * The options object with each omitted option defaulted on its own: no
   * data, no headers, a parsed reply, and `false` on failure.
   */
  function Request<V>(httpMethod: string, url: string, message: string, data: Data<V> := Null,
                      headers: map<string, string> := map[], raw: bool := false,
                      returnError: bool := false): (req: RequestOptions<V>)
    ensures req.httpMethod == httpMethod && req.url == url && req.message == message
    ensures req.data == data && req.headers == headers
    ensures req.raw == raw && req.returnError == returnError
  {
    RequestOptions(httpMethod, url, message, data, headers, raw, returnError)
  }

  /** `Response.ok`: the status is in the 2xx range. */
  predicate IsOk(status: int)
  {
    200 <= status <= 299
  }

  /** The `Content-Type` header names JSON. */
  predicate DeclaresJson(headers: map<string, string>)
  {
    "Content-Type" in headers && Includes(headers["Content-Type"], "application/json")
  }

  /**
   * The body `MakeRequest` attaches: none for null data; JSON whenever the
   * headers declare JSON; otherwise a string verbatim and anything else as JSON.
   */
  function EncodeBody<V>(data: Data<V>, headers: map<string, string>): (body: Option<Body<V>>)
    ensures body.Some? <==> !data.Null?
    ensures body.Some? && body.value.Verbatim? <==> data.Str? && !DeclaresJson(headers)
  {
    if data.Null? then None
    else if DeclaresJson(headers) then Some(JsonOf(data))
    else if data.Str? then Some(Verbatim(data.text))
    else Some(JsonOf(data))
  }

  /** What the receiver reads back from a body: the data it was built from. */
  function DecodeBody<V>(body: Body<V>): Data<V>
  {
    match body
    case Verbatim(text) => Str(text)
    case JsonOf(data) => data
  }

  /** The body always carries exactly the request's data: nothing is lost or altered. */
  lemma EncodeBodyRoundTrip<V>(data: Data<V>, headers: map<string, string>)
    requires !data.Null?
    ensures EncodeBody(data, headers).Some?
    ensures DecodeBody(EncodeBody(data, headers).value) == data
  {
  }

  /** The options `MakeRequest` passes to `fetch`. */
  function FetchOptionsFor<V>(req: RequestOptions<V>): (opts: FetchOptions<V>)
    ensures opts.httpMethod == req.httpMethod && opts.headers == req.headers
    ensures opts.body.Some? <==> !req.data.Null?
  {
    FetchOptions(req.httpMethod, req.headers, EncodeBody(req.data, req.headers))
  }

  /** The `catch` clause: return the error when asked to, otherwise `false`. */
  function Caught<V, H, J>(req: RequestOptions<V>, e: RequestError): (r: Reply<H, J>)
    ensures r.Error? <==> req.returnError
    ensures r.Error? ==> r.error == e
    ensures !req.returnError ==> r == False
  {
    if req.returnError then Error(e) else False
  }

  /**
   * `MakeRequest(options)`: send one request through `fetch` and decide what
   * comes back. Every failure is caught, so the function is total.
   */
  function MakeRequest<V, H, J>(req: RequestOptions<V>, fetch: (string, FetchOptions<V>) -> FetchOutcome<H, J>): (r: Reply<H, J>)
    ensures r.False? ==> !req.returnError
    ensures r.Error? ==> req.returnError
    ensures (r.Json? || r.RawResponse?) ==> var o := fetch(req.url, FetchOptionsFor(req)); o.Responded? && IsOk(o.status)
  {
    match fetch(req.url, FetchOptionsFor(req))
    case Thrown(message) => Caught(req, NetworkError(message))
    case Responded(status, handle, json) =>
      if !IsOk(status) then Caught(req, HttpError(status))
      else if req.raw then RawResponse(handle)
      else match json
        case Some(j) => Json(j)
        case None => Caught(req, InvalidJson)
  }

  /** A request succeeds exactly when a 2xx response arrives and, unless raw, its body parses. */
  predicate Succeeds<H, J>(outcome: FetchOutcome<H, J>, raw: bool)
  {
    outcome.Responded? && IsOk(outcome.status) && (raw || outcome.json.Some?)
  }

  /** The error a failed outcome is reported as. */
  function FailureOf<H, J>(outcome: FetchOutcome<H, J>): RequestError
  {
    match outcome
    case Thrown(message) => NetworkError(message)
    case Responded(status, _, _) => if IsOk(status) then InvalidJson else HttpError(status)
  }

  /**
   * The outcome table of `MakeRequest`: on success the raw response or the
   * parsed JSON, on any failure the error (with `returnError`) or `false`.
   */
  lemma MakeRequestOutcome<V, H, J>(req: RequestOptions<V>, fetch: (string, FetchOptions<V>) -> FetchOutcome<H, J>)
    ensures var o := fetch(req.url, FetchOptionsFor(req));
            var r := MakeRequest(req, fetch);
            && (Succeeds(o, req.raw) && req.raw ==> r == RawResponse(o.handle))
            && (Succeeds(o, req.raw) && !req.raw ==> r == Json(o.json.value))
            && (!Succeeds(o, req.raw) && req.returnError ==> r == Error(FailureOf(o)))
            && (!Succeeds(o, req.raw) && !req.returnError ==> r == False)
  {
  }

  /** With `raw` set, the response body is never parsed: the parse outcome cannot matter. */
  lemma RawIgnoresBody<V, H, J>(req: RequestOptions<V>, status: int, handle: H, a: Option<J>, b: Option<J>)
    requires req.raw
    ensures MakeRequest(req, (_, _) => Responded(status, handle, a))
         == MakeRequest(req, (_, _) => Responded(status, handle, b))
  {
  }

  /**
   * With every option left at its default, a request never reports an error
   * object: it resolves to `false` exactly when it does not succeed, and to
   * the parsed JSON otherwise, however the network behaves.
   */
  lemma DefaultRequestFailsWithFalse<V, H, J>(httpMethod: string, url: string, message: string,
                                              fetch: (string, FetchOptions<V>) -> FetchOutcome<H, J>)
    ensures var req := Request<V>(httpMethod, url, message);
            var o := fetch(url, FetchOptionsFor(req));
            var r := MakeRequest(req, fetch);
            && !r.Error? && !r.RawResponse?
            && (r.False? <==> !Succeeds(o, false))
            && (Succeeds(o, false) ==> r == Json(o.json.value))
            && o == fetch(url, FetchOptions(httpMethod, map[], None))
  {
    MakeRequestOutcome(Request<V>(httpMethod, url, message), fetch);
  }
}
