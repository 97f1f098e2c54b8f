/**
 * The server side: the cache-busting redirect of the page route, the filter
 * that keeps the items of an AWS response that validate, the paginated
 * response builder, the request parameters each endpoint hands to the AWS
 * client, and the mapping of failures to HTTP errors.
 *
 * AWS client calls are parameters (a response or a client error), and the
 * model validation of each item is a given predicate. A Python dict is an
 * ordered `seq<Member>`.
 */
module Backend {
  import opened Wrappers
  import opened JsonValue

  /** A dict decoded from JSON, such as an AWS response. */
  type Dict = seq<Member>

  /** The keyword arguments of an AWS client call; their order does not matter. */
  type Params = map<string, Json>

  /** An exception raised by the AWS client; `message` is its `str(e)`. */
  datatype ClientError = ResourceNotFound(message: string) | ServiceFailure(message: string)

  /** An `HTTPException` raised by an endpoint. */
  datatype HttpError = HttpError(status: int, detail: string)

  // ---------------------------------------------------------------------
  // Python semantics used by the handlers
  // ---------------------------------------------------------------------

  /** The Python type name of a JSON-decoded value. */
  function TypeName(v: Json): string
  {
    match v
    case JNull => "NoneType"
    case JBool(_) => "bool"
    case JNum(_) => "int"
    case JStr(_) => "str"
    case JArr(_) => "list"
    case JObj(_) => "dict"
  }

  /** The text of the `TypeError` raised by iterating over a value of the named type. */
  function NotIterable(typeName: string): string
  {
    "'" + typeName + "' object is not iterable"
  }

  /**
   * The elements a `for` loop visits: a list's items, a dict's keys, a
   * string's characters; any other value raises a `TypeError`.
   */
  function Iterate(v: Json): (r: Result<seq<Json>, string>)
    ensures r.Err? <==> v.JNull? || v.JBool? || v.JNum?
    ensures r.Err? ==> r.error == NotIterable(TypeName(v))
    ensures v.JArr? ==> r == Ok(v.items)
    ensures v.JObj? ==> r.Ok? && |r.value| == |v.members|
    ensures v.JObj? ==> forall i :: 0 <= i < |v.members| ==> r.value[i] == JStr(v.members[i].key)
    ensures v.JStr? ==> r.Ok? && |r.value| == |v.s|
    ensures v.JStr? ==> forall i :: 0 <= i < |v.s| ==> r.value[i] == JStr([v.s[i]])
  {
    match v
    case JArr(xs) => Ok(xs)
    case JObj(ms) => Ok(seq(|ms|, i requires 0 <= i < |ms| => JStr(ms[i].key)))
    case JStr(s) => Ok(seq(|s|, i requires 0 <= i < |s| => JStr([s[i]])))
    case _ => Err(NotIterable(TypeName(v)))
  }

  /** `d.get(key, default)`. */
  function GetOr(d: Dict, key: string, default: Json): (r: Json)
    ensures Lookup(d, key).Some? ==> r == Lookup(d, key).value
    ensures Lookup(d, key).None? ==> r == default
  {
    match Lookup(d, key)
    case Some(v) => v
    case None => default
  }

  /** What `for x in d.get(key, []):` visits; a missing key visits nothing. */
  function ItemsUnder(d: Dict, key: string): (r: Result<seq<Json>, string>)
    ensures Lookup(d, key).None? ==> r == Ok([])
  {
    Iterate(GetOr(d, key, JArr([])))
  }

  /** A key that is present with the value None makes the loop raise a `TypeError`. */
  lemma ItemsUnderNullRaises(d: Dict, key: string)
    requires Lookup(d, key) == Some(JNull)
    ensures ItemsUnder(d, key) == Err(NotIterable("NoneType"))
  {
    assert GetOr(d, key, JArr([])) == JNull;
  }

  /** Python truthiness of an optional string. */
  predicate IsSet(s: Option<string>)
  {
    s.Some? && s.value != ""
  }

  // ---------------------------------------------------------------------
  // Validation filter
  // ---------------------------------------------------------------------

  /** The items that pass validation, in their original order. */
  function Filter(xs: seq<Json>, valid: Json -> bool): (kept: seq<Json>)
    ensures |kept| <= |xs|
    ensures forall i :: 0 <= i < |kept| ==> valid(kept[i])
  {
    if xs == [] then []
    else (if valid(xs[0]) then [xs[0]] else []) + Filter(xs[1..], valid)
  }

  /** An item is kept iff it is one of the inputs and it validates. */
  lemma {:induction false} FilterKeepsExactlyValid(xs: seq<Json>, valid: Json -> bool, x: Json)
    ensures x in Filter(xs, valid) <==> x in xs && valid(x)
  {
    if xs != [] {
      FilterKeepsExactlyValid(xs[1..], valid, x);
      assert xs == [xs[0]] + xs[1..];
    }
  }

  /**
   * Filtering distributes over concatenation: an invalid item never stops
   * the processing of the items after it, and the kept items stay in order.
   */
  lemma {:induction false} FilterAppend(xs: seq<Json>, ys: seq<Json>, valid: Json -> bool)
    ensures Filter(xs + ys, valid) == Filter(xs, valid) + Filter(ys, valid)
  {
    if xs != [] {
      assert (xs + ys)[1..] == xs[1..] + ys;
      FilterAppend(xs[1..], ys, valid);
    } else {
      assert xs + ys == ys;
    }
  }

  /** When every item validates, all of them are kept. */
  lemma {:induction false} FilterAllValid(xs: seq<Json>, valid: Json -> bool)
    requires forall i :: 0 <= i < |xs| ==> valid(xs[i])
    ensures Filter(xs, valid) == xs
  {
    if xs != [] {
      FilterAllValid(xs[1..], valid);
    }
  }

  /** Filtering twice keeps the same items as filtering once. */
  lemma {:induction false} FilterIdempotent(xs: seq<Json>, valid: Json -> bool)
    ensures Filter(Filter(xs, valid), valid) == Filter(xs, valid)
  {
    if xs != [] {
      FilterIdempotent(xs[1..], valid);
      FilterAppend(if valid(xs[0]) then [xs[0]] else [], Filter(xs[1..], valid), valid);
    }
  }

  /** The loop of the handlers: validate each item, append the valid ones, skip the rest. */
  method KeepValid(xs: seq<Json>, valid: Json -> bool) returns (kept: seq<Json>)
    ensures kept == Filter(xs, valid)
  {
    kept := [];
    var i := 0;
    while i < |xs|
      invariant 0 <= i <= |xs|
      invariant kept == Filter(xs[..i], valid)
    {
      FilterAppend(xs[..i], [xs[i]], valid);
      assert xs[..i + 1] == xs[..i] + [xs[i]];
      if valid(xs[i]) {
        kept := kept + [xs[i]];
      }
      i := i + 1;
    }
    assert xs[..|xs|] == xs;
  }

  /**
   * `_process_api_response`: the items under `itemKey` that validate, in
   * order; a missing key gives the empty list, and a value that cannot be
   * iterated raises.
   */
  method ProcessApiResponse(response: Dict, itemKey: string, valid: Json -> bool)
    returns (r: Result<seq<Json>, string>)
    ensures Lookup(response, itemKey).None? ==> r == Ok([])
    ensures ItemsUnder(response, itemKey).Err? ==> r == Err(ItemsUnder(response, itemKey).error)
    ensures ItemsUnder(response, itemKey).Ok? ==> r == Ok(Filter(ItemsUnder(response, itemKey).value, valid))
  {
    var found := ItemsUnder(response, itemKey);
    match found {
      case Err(message) =>
        r := Err(message);
      case Ok(xs) =>
        var kept := KeepValid(xs, valid);
        r := Ok(kept);
    }
  }

  // ---------------------------------------------------------------------
  // Paginated response
  // ---------------------------------------------------------------------

  /**
   * `_build_paginated_response`: a dict with the items under `itemsKey` and
   * the response's `nextToken` (None when absent). If `itemsKey` were
   * "nextToken" itself, the later entry of the dict display would win.
   */
  function BuildPaginatedResponse(items: seq<Json>, response: Dict, itemsKey: string): (r: Dict)
    ensures Lookup(r, "nextToken") == Some(GetOr(response, "nextToken", JNull))
    ensures Lookup(response, "nextToken").None? ==> Lookup(r, "nextToken") == Some(JNull)
    ensures itemsKey != "nextToken" ==> Lookup(r, itemsKey) == Some(JArr(items)) && |r| == 2
    ensures itemsKey == "nextToken" ==> |r| == 1
    ensures forall m :: m in r ==> m.key == itemsKey || m.key == "nextToken"
  {
    var token := GetOr(response, "nextToken", JNull);
    if itemsKey == "nextToken" then [Member("nextToken", token)]
    else [Member(itemsKey, JArr(items)), Member("nextToken", token)]
  }

  /**
   * The answer of a list endpoint to its AWS call: every client failure is a
   * 500 with the error text, and so is a response whose items cannot be
   * iterated; otherwise the valid items under `outKey` with the token.
   */
  function ListingResponse(outcome: Result<Dict, ClientError>, itemKey: string, outKey: string,
                           valid: Json -> bool): (r: Result<Dict, HttpError>)
    requires outKey != "nextToken"
    ensures outcome.Err? ==> r == Err(HttpError(500, outcome.error.message))
    ensures outcome.Ok? && ItemsUnder(outcome.value, itemKey).Err? ==>
      r == Err(HttpError(500, ItemsUnder(outcome.value, itemKey).error))
    ensures outcome.Ok? && ItemsUnder(outcome.value, itemKey).Ok? ==>
      r.Ok? && |r.value| == 2 &&
      Lookup(r.value, outKey) == Some(JArr(Filter(ItemsUnder(outcome.value, itemKey).value, valid))) &&
      Lookup(r.value, "nextToken") == Some(GetOr(outcome.value, "nextToken", JNull))
  {
    match outcome
    case Err(e) => Err(HttpError(500, e.message))
    case Ok(response) =>
      match ItemsUnder(response, itemKey)
      case Err(message) => Err(HttpError(500, message))
      case Ok(xs) => Ok(BuildPaginatedResponse(Filter(xs, valid), response, outKey))
  }

  // ---------------------------------------------------------------------
  // The page route
  // ---------------------------------------------------------------------

  datatype HomeResponse =
    | Redirect(url: string, status: int, cacheControl: string)
    | Page(cacheBustUuid: string)

  /**
   * `home`: a request whose `v` is missing, empty or not the startup UUID is
   * redirected to "/?v=<uuid>" with status 302 and no caching; otherwise the
   * page is served with the UUID.
   */
  function Home(v: Option<string>, cacheBustUuid: string): (r: HomeResponse)
    ensures r.Redirect? <==> v.None? || v.value == "" || v.value != cacheBustUuid
    ensures r.Redirect? ==> r.url == "/?v=" + cacheBustUuid && r.status == 302
    ensures r.Redirect? ==> r.cacheControl == "no-cache, no-store, must-revalidate"
    ensures r.Page? ==> r.cacheBustUuid == cacheBustUuid
  {
    if v.None? || v.value == "" || v.value != cacheBustUuid then
      Redirect("/?v=" + cacheBustUuid, 302, "no-cache, no-store, must-revalidate")
    else Page(cacheBustUuid)
  }

  /** The text of `str(uuid.uuid4())`: 36 lower-case hex digits and dashes. */
  predicate IsUuidText(s: string)
  {
    |s| == 36 && forall i :: 0 <= i < |s| ==> s[i] in "0123456789abcdef-"
  }

  /** The `v` query parameter of a URL of the form "/?v=<value>" without another parameter. */
  function QueryV(url: string): Option<string>
  {
    if |url| >= 4 && url[..4] == "/?v=" && '&' !in url[4..] && '#' !in url[4..]
    then Some(url[4..]) else None
  }

  /** The redirect target carries exactly the build's identifier in its `v` parameter. */
  lemma QueryOfRedirect(cacheBustUuid: string)
    requires IsUuidText(cacheBustUuid)
    ensures QueryV("/?v=" + cacheBustUuid) == Some(cacheBustUuid)
  {
    var url := "/?v=" + cacheBustUuid;
    assert url[..4] == "/?v=" && url[4..] == cacheBustUuid;
    assert '&' !in cacheBustUuid && '#' !in cacheBustUuid;
  }

  /** Following the redirect once reaches the page, and the page is not redirected again. */
  lemma RedirectConverges(v: Option<string>, cacheBustUuid: string)
    requires IsUuidText(cacheBustUuid)
    ensures var r := Home(v, cacheBustUuid);
      r.Redirect? ==> QueryV(r.url) == Some(cacheBustUuid) && Home(QueryV(r.url), cacheBustUuid).Page?
    ensures Home(Some(cacheBustUuid), cacheBustUuid).Page?
  {
    QueryOfRedirect(cacheBustUuid);
  }

  // ---------------------------------------------------------------------
  // Endpoints
  // ---------------------------------------------------------------------

  /**
   * `list_events`: sends memoryId, sessionId, actorId and maxResults, plus
   * nextToken only when one is given, and answers with the valid events.
   * `params` is the keyword-argument dict handed to the client.
   */
  method ListEvents(client: Params -> Result<Dict, ClientError>, valid: Json -> bool,
                    memoryId: string, sessionId: string, actorId: string,
                    maxResults: int := 50, nextToken: Option<string> := None)
    returns (params: Params, r: Result<Dict, HttpError>)
    ensures params.Keys == {"memoryId", "sessionId", "actorId", "maxResults"} +
      (if IsSet(nextToken) then {"nextToken"} else {})
    ensures "memoryId" in params && params["memoryId"] == JStr(memoryId)
    ensures "sessionId" in params && params["sessionId"] == JStr(sessionId)
    ensures "actorId" in params && params["actorId"] == JStr(actorId)
    ensures "maxResults" in params && params["maxResults"] == JNum(maxResults)
    ensures "nextToken" in params <==> IsSet(nextToken)
    ensures "nextToken" in params ==> params["nextToken"] == JStr(nextToken.value)
    ensures r == ListingResponse(client(params), "events", "events", valid)
  {
    params := map["memoryId" := JStr(memoryId), "sessionId" := JStr(sessionId),
                  "actorId" := JStr(actorId), "maxResults" := JNum(maxResults)];
    assert params.Keys == {"memoryId", "sessionId", "actorId", "maxResults"};
    if IsSet(nextToken) {
      params := params["nextToken" := JStr(nextToken.value)];
    }
    r := CallListing(client(params), "events", "events", valid);
  }

  /**
   * `list_memory_records`: sends memoryId, namespace and maxResults, plus
   * memoryStrategyId and nextToken each only when given, and answers with the
   * valid record summaries under "records".
   */
  method ListMemoryRecords(client: Params -> Result<Dict, ClientError>, valid: Json -> bool,
                           memoryId: string, namespace: string,
                           memoryStrategyId: Option<string> := None, maxResults: int := 50,
                           nextToken: Option<string> := None)
    returns (params: Params, r: Result<Dict, HttpError>)
    ensures params.Keys == {"memoryId", "namespace", "maxResults"} +
      (if IsSet(memoryStrategyId) then {"memoryStrategyId"} else {}) +
      (if IsSet(nextToken) then {"nextToken"} else {})
    ensures "memoryId" in params && params["memoryId"] == JStr(memoryId)
    ensures "namespace" in params && params["namespace"] == JStr(namespace)
    ensures "maxResults" in params && params["maxResults"] == JNum(maxResults)
    ensures "memoryStrategyId" in params <==> IsSet(memoryStrategyId)
    ensures "memoryStrategyId" in params ==> params["memoryStrategyId"] == JStr(memoryStrategyId.value)
    ensures "nextToken" in params <==> IsSet(nextToken)
    ensures "nextToken" in params ==> params["nextToken"] == JStr(nextToken.value)
    ensures r == ListingResponse(client(params), "memoryRecordSummaries", "records", valid)
  {
    params := map["memoryId" := JStr(memoryId), "namespace" := JStr(namespace),
                  "maxResults" := JNum(maxResults)];
    assert params.Keys == {"memoryId", "namespace", "maxResults"};
    if IsSet(memoryStrategyId) {
      params := params["memoryStrategyId" := JStr(memoryStrategyId.value)];
    }
    if IsSet(nextToken) {
      params := params["nextToken" := JStr(nextToken.value)];
    }
    r := CallListing(client(params), "memoryRecordSummaries", "records", valid);
  }

  /** The body of a retrieve request; `maxResults` defaults to 10 and may be sent as null. */
  datatype RetrieveRequest = RetrieveRequest(
    query: string,
    namespace: string,
    maxResults: Option<int> := Some(10),
    nextToken: Option<string> := None)

  /** The JSON of an optional integer: null when absent. */
  function OptionalNumber(n: Option<int>): Json
  {
    if n.Some? then JNum(n.value) else JNull
  }

  /** `{"searchQuery": query}`: the search criteria object holding only the query. */
  function SearchCriteria(query: string): (c: Json)
    ensures c.JObj? && |c.members| == 1
    ensures Get(c, "searchQuery") == Some(JStr(query))
  {
    JObj([Member("searchQuery", JStr(query))])
  }

  /**
   * `retrieve_memory_records`: sends memoryId, namespace, the search query as
   * `searchCriteria = {"searchQuery": query}` and maxResults, plus nextToken
   * only when given, and answers with the valid record summaries.
   */
  method RetrieveMemoryRecords(client: Params -> Result<Dict, ClientError>, valid: Json -> bool,
                               memoryId: string, request: RetrieveRequest)
    returns (params: Params, r: Result<Dict, HttpError>)
    ensures params.Keys == {"memoryId", "namespace", "searchCriteria", "maxResults"} +
      (if IsSet(request.nextToken) then {"nextToken"} else {})
    ensures "memoryId" in params && params["memoryId"] == JStr(memoryId)
    ensures "namespace" in params && params["namespace"] == JStr(request.namespace)
    ensures "searchCriteria" in params && params["searchCriteria"] == SearchCriteria(request.query)
    ensures "maxResults" in params
    ensures request.maxResults.Some? ==> params["maxResults"] == JNum(request.maxResults.value)
    ensures request.maxResults.None? ==> params["maxResults"] == JNull
    ensures "nextToken" in params <==> IsSet(request.nextToken)
    ensures "nextToken" in params ==> params["nextToken"] == JStr(request.nextToken.value)
    ensures r == ListingResponse(client(params), "memoryRecordSummaries", "records", valid)
  {
    params := map["memoryId" := JStr(memoryId), "namespace" := JStr(request.namespace),
                  "searchCriteria" := SearchCriteria(request.query),
                  "maxResults" := OptionalNumber(request.maxResults)];
    assert params.Keys == {"memoryId", "namespace", "searchCriteria", "maxResults"};
    if IsSet(request.nextToken) {
      params := params["nextToken" := JStr(request.nextToken.value)];
    }
    r := CallListing(client(params), "memoryRecordSummaries", "records", valid);
  }

  /** The shared tail of the three list endpoints, run on the client's answer. */
  method CallListing(outcome: Result<Dict, ClientError>, itemKey: string, outKey: string,
                     valid: Json -> bool) returns (r: Result<Dict, HttpError>)
    requires outKey != "nextToken"
    ensures r == ListingResponse(outcome, itemKey, outKey, valid)
  {
    match outcome {
      case Err(e) =>
        r := Err(HttpError(500, e.message));
      case Ok(response) =>
        var items := ProcessApiResponse(response, itemKey, valid);
        match items {
          case Err(message) =>
            r := Err(HttpError(500, message));
          case Ok(kept) =>
            r := Ok(BuildPaginatedResponse(kept, response, outKey));
        }
    }
  }

  /**
   * `list_memories`: the memory summaries that validate, in order; any
   * failure of the listing is a 500 with the error text.
   */
  method ListMemories(outcome: Result<Dict, ClientError>, valid: Json -> bool)
    returns (r: Result<seq<Json>, HttpError>)
    ensures outcome.Err? ==> r == Err(HttpError(500, outcome.error.message))
    ensures outcome.Ok? && ItemsUnder(outcome.value, "memories").Err? ==>
      r == Err(HttpError(500, ItemsUnder(outcome.value, "memories").error))
    ensures outcome.Ok? && ItemsUnder(outcome.value, "memories").Ok? ==>
      r == Ok(Filter(ItemsUnder(outcome.value, "memories").value, valid))
    ensures r.Err? ==> r.error.status == 500
  {
    match outcome {
      case Err(e) =>
        r := Err(HttpError(500, e.message));
      case Ok(response) =>
        match ItemsUnder(response, "memories") {
          case Err(message) =>
            r := Err(HttpError(500, message));
          case Ok(xs) =>
            var memories := KeepValid(xs, valid);
            r := Ok(memories);
        }
    }
  }

  /** `"'T' object has no attribute 'get'"`: the AttributeError of `.get` on a non-dict. */
  function NoGetAttribute(typeName: string): string
  {
    "'" + typeName + "' object has no attribute 'get'"
  }

  /** `memory_data['strategies'] = strategies`: only the strategies change. */
  function WithStrategies(memory: Dict, strategies: seq<Json>): (u: Json)
    ensures u.JObj? && Get(u, "strategies") == Some(JArr(strategies))
    ensures forall k :: k != "strategies" ==> Get(u, k) == Lookup(memory, k)
  {
    JObj(SetMember(memory, "strategies", JArr(strategies)))
  }

  /**
   * What `get_memory` answers once the response holds a `memory`: a non-dict fails on
   * `.get`, strategies that cannot be iterated fail the loop, and otherwise the memory
   * with its valid strategies is returned when it validates and is a 500 with the
   * validation error when it does not.
   */
  function FetchedMemory(memory: Json, validStrategy: Json -> bool,
                         memoryError: Json -> Option<string>): (r: Result<Json, HttpError>)
    ensures !memory.JObj? ==> r == Err(HttpError(500, NoGetAttribute(TypeName(memory))))
    ensures memory.JObj? && ItemsUnder(memory.members, "strategies").Err? ==>
      r == Err(HttpError(500, ItemsUnder(memory.members, "strategies").error))
    ensures memory.JObj? && ItemsUnder(memory.members, "strategies").Ok? ==>
      var u := WithStrategies(memory.members, Filter(ItemsUnder(memory.members, "strategies").value, validStrategy));
      (memoryError(u).None? ==> r == Ok(u)) &&
      (memoryError(u).Some? ==> r == Err(HttpError(500, memoryError(u).value)))
  {
    if !memory.JObj? then Err(HttpError(500, NoGetAttribute(TypeName(memory))))
    else match ItemsUnder(memory.members, "strategies")
      case Err(message) => Err(HttpError(500, message))
      case Ok(xs) =>
        var u := WithStrategies(memory.members, Filter(xs, validStrategy));
        match memoryError(u)
        case Some(message) => Err(HttpError(500, message))
        case None => Ok(u)
  }

  /**
   * `get_memory`: the memory with its strategies replaced by those that
   * validate, in order, provided the whole memory then validates. A memory
   * the service does not know is a 404 "Memory not found"; every other
   * failure is a 500 with the error text: a response without "memory"
   * (a KeyError), a memory that is not a dict, strategies that cannot be
   * iterated, or a memory that fails validation (`memoryError`).
   */
  method GetMemory(client: string -> Result<Dict, ClientError>, validStrategy: Json -> bool,
                   memoryError: Json -> Option<string>, memoryId: string)
    returns (r: Result<Json, HttpError>)
    ensures r.Err? ==> r.error.status == 404 || r.error.status == 500
    ensures r.Err? && r.error.status == 404 <==> client(memoryId).Err? && client(memoryId).error.ResourceNotFound?
    ensures r.Err? && r.error.status == 404 ==> r.error.detail == "Memory not found"
    ensures client(memoryId).Err? && client(memoryId).error.ServiceFailure? ==>
      r == Err(HttpError(500, client(memoryId).error.message))
    ensures client(memoryId).Ok? && Lookup(client(memoryId).value, "memory").None? ==>
      r == Err(HttpError(500, "'memory'"))
    ensures client(memoryId).Ok? && Lookup(client(memoryId).value, "memory").Some? ==>
      r == FetchedMemory(Lookup(client(memoryId).value, "memory").value, validStrategy, memoryError)
    ensures r.Ok? ==>
      client(memoryId).Ok? && Lookup(client(memoryId).value, "memory").Some? &&
      var memory := Lookup(client(memoryId).value, "memory").value;
      memory.JObj? && ItemsUnder(memory.members, "strategies").Ok? &&
      r.value.JObj? &&
      Get(r.value, "strategies") == Some(JArr(Filter(ItemsUnder(memory.members, "strategies").value, validStrategy))) &&
      (forall k :: k != "strategies" ==> Get(r.value, k) == Get(memory, k)) &&
      memoryError(r.value).None?
  {
    var outcome := client(memoryId);
    match outcome {
      case Err(e) =>
        if e.ResourceNotFound? {
          r := Err(HttpError(404, "Memory not found"));
        } else {
          r := Err(HttpError(500, e.message));
        }
      case Ok(response) =>
        match Lookup(response, "memory") {
          case None =>
            r := Err(HttpError(500, "'memory'"));
          case Some(memory) =>
            if !memory.JObj? {
              r := Err(HttpError(500, NoGetAttribute(TypeName(memory))));
              return;
            }
            match ItemsUnder(memory.members, "strategies") {
              case Err(message) =>
                r := Err(HttpError(500, message));
              case Ok(xs) =>
                var strategies := KeepValid(xs, validStrategy);
                var updated := WithStrategies(memory.members, strategies);
                match memoryError(updated) {
                  case Some(message) =>
                    r := Err(HttpError(500, message));
                  case None =>
                    r := Ok(updated);
                }
            }
        }
    }
  }
}
