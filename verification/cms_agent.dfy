/** The content agent: fetching one page of the content-management API, validating the response
    in a fixed order, and serving pages through a background-refresh cache. */
module CmsAgent {
  import opened Wrappers
  import opened JsValues

  /** What `res.json()` settles with: the parsed body, or a rejection for a body that is not JSON. */
  datatype Body = Parsed(value: Json) | Unparsable

  /** What `fetch(url)` settles with: a rejection (no connection) or a response. */
  datatype Upstream = NetworkFailure | Response(status: int, body: Body)

  /** The rejections of a page fetch. */
  datatype FetchError =
    | TransportError          // `fetch` itself rejected
    | BadStatus(status: int)  // "Bad status: <status>", carrying `statusCode = status`
    | MalformedJson           // `res.json()` rejected
    | InvalidData             // "Invalid data received"
    | NullMarker              // TypeError: writing `fetchedAt` on `null`
    | InvalidPage             // "Invalid page returned"
  {
    /** The error's `statusCode` property: only the status check sets one. */
    function StatusCode(): (code: Option<int>)
      ensures code.Some? <==> BadStatus?
      ensures BadStatus? ==> code == Some(status)
    {
      if BadStatus? then Some(status) else None
    }
  }

  /** The property stamped on every accepted payload. */
  const FetchedAt := "fetchedAt"

  /** `after` is `before` with `fetchedAt` set to `now` and nothing else changed. */
  ghost predicate Stamped(before: Json, after: Json, now: int) {
    && after.JObj? == before.JObj? && after.JArr? == before.JArr?
    && Get(after, FetchedAt) == Some(JNum(now))
    && forall k :: k != FetchedAt ==> Get(after, k) == Get(before, k)
  }

  /** `assertObject`: accepts exactly the values whose `typeof` is "object", `null` and arrays
      included. */
  function AssertObject(v: Json): (r: Result<Json, FetchError>)
    ensures r.Success? <==> (v.JNull? || v.JArr? || v.JObj?)
    ensures r.Success? ==> r.value == v
    ensures r.Failure? ==> r.error == InvalidData
  {
    if TypeOf(v) != "object" then Failure(InvalidData) else Success(v)
  }

  /** `addMarker`: `json.fetchedAt = Date.now()` on the decoded value, with the clock reading
      `now` as an input. On `null` the write throws. */
  function AddMarker(v: Json, now: int): (r: Result<Json, FetchError>)
    requires TypeOf(v) == "object"
    ensures r.Failure? <==> v.JNull?
    ensures r.Failure? ==> r.error == NullMarker
    ensures r.Success? ==> Stamped(v, r.value, now)
  {
    assert !('0' <= FetchedAt[0] <= '9');
    if v.JNull? then Failure(NullMarker) else Success(Put(v, FetchedAt, JNum(now)))
  }

  /** `fetchAndDecode`: status check, then decoding, then the object check, then the stamp. */
  function FetchAndDecode(resp: Upstream, now: int): (r: Result<Json, FetchError>)
    ensures resp.NetworkFailure? ==> r == Failure(TransportError)
    ensures resp.Response? && resp.status >= 300 ==> r == Failure(BadStatus(resp.status))
    ensures r.Failure? && r.error.StatusCode().Some? ==>
              resp.Response? && resp.status >= 300 && r.error.StatusCode() == Some(resp.status)
    ensures resp.Response? && resp.status < 300 && resp.body.Unparsable? ==> r == Failure(MalformedJson)
    ensures (resp.Response? && resp.status < 300 && resp.body.Parsed?
             && TypeOf(resp.body.value) != "object") ==> r == Failure(InvalidData)
    ensures resp.Response? && resp.status < 300 && resp.body == Parsed(JNull) ==> r == Failure(NullMarker)
    ensures r.Success? <==> resp.Response? && resp.status < 300 && resp.body.Parsed?
                            && (resp.body.value.JObj? || resp.body.value.JArr?)
    ensures r.Success? ==> Stamped(resp.body.value, r.value, now)
  {
    match resp
    case NetworkFailure => Failure(TransportError)
    case Response(status, body) =>
      if status >= 300 then Failure(BadStatus(status))
      else match body
        case Unparsable => Failure(MalformedJson)
        case Parsed(json) =>
          match AssertObject(json)
          case Failure(e) => Failure(e)
          case Success(v) => AddMarker(v, now)
  }

  /** The page-shape check: `id`, `html` and `title` all truthy. */
  predicate ValidPage(page: Json) {
    Truthy(Get(page, "id")) && Truthy(Get(page, "html")) && Truthy(Get(page, "title"))
  }

  /** `fetchPage` given what the network answered for the page's URL. A page is accepted exactly
      when the upstream answered below 300 with a JSON object or array whose own `id`, `html` and
      `title` are truthy; the accepted page is that payload with `fetchedAt` stamped and nothing
      else changed. A rejection is the first failing check's error. */
  function FetchPage(resp: Upstream, now: int): (r: Result<Json, FetchError>)
    ensures r.Success? <==>
              && resp.Response? && resp.status < 300 && resp.body.Parsed?
              && (resp.body.value.JObj? || resp.body.value.JArr?)
              && ValidPage(resp.body.value)
    ensures r.Success? ==> Stamped(resp.body.value, r.value, now) && ValidPage(r.value)
    ensures FetchAndDecode(resp, now).Failure? ==> r == FetchAndDecode(resp, now)
    ensures r == Failure(InvalidPage) <==> FetchAndDecode(resp, now).Success? && !ValidPage(resp.body.value)
  {
    match FetchAndDecode(resp, now)
    case Failure(e) => Failure(e)
    case Success(page) =>
      StampKeepsShape(resp.body.value, page, now);
      if !ValidPage(page) then Failure(InvalidPage) else Success(page)
  }

  /** The stamp neither creates nor hides a page field. */
  lemma StampKeepsShape(before: Json, after: Json, now: int)
    requires Stamped(before, after, now)
    ensures ValidPage(after) <==> ValidPage(before)
  {
    assert Get(after, "id") == Get(before, "id");
    assert Get(after, "html") == Get(before, "html");
    assert Get(after, "title") == Get(before, "title");
  }

  /** The status check comes first: any status of 300 or above yields the status error, whatever
      the body is and whenever it is fetched, so such a response never reaches the shape check. */
  lemma StatusPrecedesPayload(status: int, b1: Body, b2: Body, t1: int, t2: int)
    requires status >= 300
    ensures FetchPage(Response(status, b1), t1) == FetchPage(Response(status, b2), t2)
    ensures FetchPage(Response(status, b1), t1) == Failure(BadStatus(status))
    ensures FetchPage(Response(status, b1), t1).error.StatusCode() == Some(status)
  {
  }

  /** A JSON array passes the object check but is never a page: a decoded array carries no `id`. */
  lemma ArrayNeverAPage(items: seq<Json>, status: int, now: int)
    requires status < 300
    ensures FetchPage(Response(status, Parsed(JArr(items, map[]))), now) == Failure(InvalidPage)
  {
    var stamped := FetchAndDecode(Response(status, Parsed(JArr(items, map[]))), now).value;
    assert !('0' <= "id"[0] <= '9');
    assert Get(stamped, "id") == Get(JArr(items, map[]), "id") == None;
  }

  /** The cache lifetime, `process.env.CMS_CACHE_TIME || 30 * 60`: the variable's text when it is
      set and non-empty, and 1800 seconds otherwise. */
  datatype CacheTtl = Configured(raw: string) | DefaultSeconds(seconds: nat)

  function CacheTime(env: Option<string>): (ttl: CacheTtl)
    ensures ttl.DefaultSeconds? <==> env.None? || env.value == ""
    ensures ttl.DefaultSeconds? ==> ttl.seconds == 1800
    ensures ttl.Configured? ==> env == Some(ttl.raw)
  {
    if env.Some? && env.value != "" then Configured(env.value) else DefaultSeconds(30 * 60)
  }

  /** The page cache as the agent holds it: named "content", with the lifetime above, whose `get`
      answers with a page or with a fetch error. How it refreshes is not part of this model. */
  datatype PageCache = PageCache(name: string, ttl: CacheTtl, get: string -> Result<Json, FetchError>)

  /** `getPage(slug)`: the cache's answer for the same slug, untouched. */
  function GetPage(cache: PageCache, slug: string): (r: Result<Json, FetchError>)
    ensures r == cache.get(slug)
  {
    cache.get(slug)
  }
}
