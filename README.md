# AgentCore Memory Browser — a verified model of its core

AgentCore Memory Browser is a small web application for browsing Amazon Bedrock
AgentCore Memory resources. A FastAPI backend (`backend.py`) wraps the AWS
clients: it lists memories, fetches one memory with its strategies, and lists
events, lists memory records, or retrieves (searches) memory records. In each
case it keeps only the items that validate and returns them with a pagination
token. It also serves the page behind a cache-busting redirect. A single-page
browser client (`static/js/app.js`) lets the user pick a memory and a strategy
and run those queries. It shows the results in tables with a text preview per
item, and it keeps lookup maps so that each row's JSON button can open the full
item.

This Dafny project models the logic of both sides and proves what each part
promises:

- `json.dfy` (`JsonValue`): JSON-like values whose object members keep their
  order, JavaScript truthiness, property lookup, and Python's `d[k] = v`.
- `js_strings.dfy` (`JsStrings`): the JavaScript string built-ins the client
  relies on: `trim` with the ECMAScript white-space set, `toUpperCase` for
  the letters that matter here, `indexOf`/`includes`, and `String.replace`
  with a string pattern, including its `$` replacement patterns.
- `preview.dfy` (`Preview`): `extractTextForPreview`, the 100-character
  truncation and `generateContentPreview`.
- `formatting.dfy` (`Formatting`): `getStatusBadgeClass` and the type
  dispatch of `formatDate`.
- `entities.dfy` (`Entities`): memories, strategies, events and records as
  the client receives them, and the `a || b` fallbacks of table cells.
- `namespaces.dfy` (`Namespaces`): `getSimplifiedNamespace` and the rule that
  prefills a namespace input only when it is empty. The inputs are objects
  updated in place.
- `app_state.dfy` (`AppState`): the client's state.
  - A results container (`Panel`) holds an abstract surface state. A ghost
    log records every write, every producer call and every display call.
  - The page (`Browser`) holds the current memory, the two lookup maps and
    the JSON viewer.
  - It also covers `executeApiCall` with its three validators, the table
    displays that rebuild the maps, and the JSON-button dispatch.
- `backend.dfy` (`Backend`): the server side.
  - The validation filter and the paginated response.
  - The keyword arguments each endpoint passes to the AWS client.
  - The mapping of failures to HTTP errors, and the redirect decision.
  - AWS calls and pydantic validation are parameters: a response or a client
    error, and a validity predicate.

## Model

| member | source | states |
|---|---|---|
| Preview.FieldHit | static/js/app.js:1127-1133 | A hit is a non-empty string stored under the field at the top level or inside `content`. A top-level hit wins over one inside `content`. |
| Preview.CanonicalText | static/js/app.js:1126-1135 | A result of the field loop is never the empty string. |
| Preview.CanonicalTextIsFirstHit | static/js/app.js:1126-1135 | The result is the hit of the first field, in list order, whose top-level value is a non-empty string or, failing that, whose value inside a truthy `content` is one. Every earlier field misses in both places. There is no result iff every field misses. |
| Preview.CollectStrings | static/js/app.js:1138-1147 | Every collected string is longer than 10 characters. Nothing is collected below depth 3. |
| Preview.CollectItems | static/js/app.js:1143-1145 | The same holds for the strings collected from the items of an array. |
| Preview.CollectMembers | static/js/app.js:1143-1145 | The same holds for the strings collected from the values of an object. |
| Preview.CollectStringsFinds | static/js/app.js:1137-1148 | A string is collected from a node at depth `d` iff `d <= 3`, it is longer than 10 characters, and it lies at most `3 - d` levels below the node. Deeper strings are never visited. |
| Preview.ExtractTextForPreview | static/js/app.js:1119-1151 | The extractor returns "" exactly for a falsy input. The lemmas below state which text it picks otherwise. |
| Preview.ScanFinds | static/js/app.js:1137-1148 | The scan from the root collects exactly the strings longer than 10 characters that lie at most 3 levels down. |
| Preview.ExtractUsesScan | static/js/app.js:1148-1150 | With no canonical hit, the result is the first string the scan collects, or "Complex data structure" when it collects none. |
| Preview.ExtractFallsBackToScan | static/js/app.js:1137-1150 | With no canonical hit, when some string longer than 10 characters lies within depth 3, the result is such a string. |
| Preview.ExtractSentinelWhenScanEmpty | static/js/app.js:1137-1150 | With no canonical hit and no string longer than 10 characters within depth 3, the result is exactly "Complex data structure". |
| Preview.TopLevelFieldWins | static/js/app.js:1127-1130 | A non-empty top-level string under a canonical field is the result when no earlier field hits. |
| Preview.ContentFieldWins | static/js/app.js:1131-1133 | A non-empty string under a field of `content` is the result when the top level has none under that field and no earlier field hits. Later top-level fields do not matter, so the two places are tried per field. |
| Preview.TruncateForPreview | static/js/app.js:1101 | A text of at most 100 characters is unchanged. A longer text becomes its first 100 characters followed by "...", 103 characters in all. |
| Preview.TruncateIdempotent | static/js/app.js:1101 | Truncating a truncated preview changes nothing. |
| Preview.MergedContent | static/js/app.js:1083-1095 | The merged object is truthy. It has a `content` key iff content is present with keys, and a `metadata` key iff metadata is. It has no other key. |
| Preview.GenerateContentPreview | static/js/app.js:1082-1116 | The "No Content" badge appears iff neither content nor metadata is present with keys. Otherwise the snippet is the truncation of the text extracted from the merged object, which is non-empty and at most 103 characters. "No preview available" is never produced. |
| Formatting.GetStatusBadgeClass | static/js/app.js:1047-1061 | The result is always one of the four classes. A missing status gets `bg-secondary`, and so does a present status that is not one of the six names after upper-casing. |
| Formatting.StatusBadgeOfUpper | static/js/app.js:1048 | The class ignores letter case: upper-casing a status first gives the same class. |
| Formatting.StatusBadgeIgnoresCase | static/js/app.js:1047-1060 | Any spelling of one of the six status names, in any mix of ASCII letter case, gets its group's class. AVAILABLE and ACTIVE get `bg-success`, CREATING and UPDATING get `bg-warning`, and DELETING and FAILED get `bg-danger`. |
| Formatting.FormatDate | static/js/app.js:1063-1079 | The result is 'N/A' iff the value is missing or falsy. The early 'Invalid Date' return at static/js/app.js:1075 is taken iff the value is truthy and neither a number nor a string. |
| JsStrings.Trim | static/js/app.js:679-680 | The result is a slice of the string that leaves out only white space at either end, and neither end of it is white space. |
| JsStrings.TrimIsEmptyIff | static/js/app.js:679-683 | A string trims to "" iff every character is white space. |
| JsStrings.UpperIdempotent | static/js/app.js:1048 | Upper-casing twice is the same as upper-casing once. |
| JsStrings.IndexOfFrom | static/js/app.js:864 | The result is the first occurrence at or after the start position. A miss means no occurrence there. |
| JsStrings.SubstitutionLiteral | static/js/app.js:865 | A replacement text without `$` is inserted verbatim. |
| JsStrings.ReplaceFirst | static/js/app.js:865 | A string without the pattern is returned unchanged. |
| JsStrings.ReplaceFirstLiteral | static/js/app.js:865 | With a replacement free of `$`, only the first occurrence is replaced, by the replacement itself. |
| Namespaces.GetSimplifiedNamespace | static/js/app.js:856-869 | No templates, or an empty list, give "/default/". A first template without the placeholder is returned unchanged. |
| Namespaces.ResolvesFirstPlaceholderOnly | static/js/app.js:862-866 | For `before + "{memoryStrategyId}" + after`, with no earlier occurrence, the result is `before + strategyId + after`. Later placeholders stay. |
| Namespaces.ResolveExample | static/js/app.js:856-869 | "/{memoryStrategyId}/prefs/" resolves to "/" + id + "/prefs/". |
| Namespaces.ResolveOnlyFirstExample | static/js/app.js:856-869 | Of two placeholders, only the first is replaced. |
| Namespaces.PrefilledValue | static/js/app.js:721-726 | An empty input gets the resolved namespace. Any non-empty value, white space included, is kept. |
| Namespaces.PrefillIdempotent | static/js/app.js:721-726 | Prefilling twice gives the same value as prefilling once. |
| Namespaces.Prepopulate | static/js/app.js:786-791 | The input's new value is the prefilled value of its old one. A missing input is ignored. |
| Namespaces.InitializeStrategyNamespaces | static/js/app.js:872-885 | Both inputs hold the prefilled values of their old values, even when they are one element. |
| JsonValue.Truthy | static/js/app.js:1120 | A value is falsy iff it is null, false, 0 or "". Empty arrays and objects are truthy. |
| JsonValue.HasKeys | static/js/app.js:1083-1084 | A value with keys is truthy. An empty object or array is truthy without keys, which is why the check counts keys. |
| JsonValue.SetMember | backend.py:237 | Afterwards the key holds the new value, and every other key holds what it held before. An existing key keeps the length, and a new key makes the object one member longer. |
| JsonValue.SetMemberKeepsPlaces | backend.py:237 | Assigning to an existing key keeps every key in its place. |
| JsonValue.SetMemberAppendsNew | backend.py:237 | Assigning to a new key keeps every old key in its place and puts the new member last. |
| Entities.OrElse | static/js/app.js:1184 | `a \|\| b` on optional strings: a non-empty `a` wins, and a missing or empty `a` gives `b`. |
| Entities.OrDefault | static/js/app.js:1210-1211 | A non-empty value is shown as is. A missing or empty one shows the fallback. |
| AppState.IndexBy | static/js/app.js:975-978 | Every entry of the rebuilt map is stored under its own item's key. The same builder serves the records map at static/js/app.js:1182-1188. |
| AppState.IndexByLookup | static/js/app.js:975-978 | The rebuilt map holds exactly the keys some item carries. Each key maps to the last item carrying it. |
| AppState.RecordKey | static/js/app.js:1184-1187 | A non-empty `recordId` is the key. Otherwise a non-empty `memoryRecordId` is. There is no key exactly when both are missing or empty. |
| AppState.EventRowOf | static/js/app.js:997-1010 | The row shows the event's id and its type, and "N/A" when the type is missing or empty, so the type cell is never blank. Its preview is the "No Content" badge iff neither data nor metadata has keys. |
| AppState.RecordRowOf | static/js/app.js:1209-1235 | The row's button id is the record's key in the records map, or "N/A" for a record without a key. The strategy cell is never blank. The preview is the "No Content" badge iff neither content nor metadata has keys. |
| AppState.EventsView | static/js/app.js:963-1015 | "No events found" appears iff the list is missing or empty. Otherwise the table has one row per event, in order. |
| AppState.RecordsView | static/js/app.js:1170-1240 | A missing or empty list shows the namespace notice. Otherwise the table shows the title and the namespace, with one row per record, in order. |
| AppState.EventButtonsResolve | static/js/app.js:1008 | Every events-table row's button id is in the rebuilt events map, under an event with that id. |
| AppState.RecordButtonsResolve | static/js/app.js:1210-1230 | A record with an id shows it on its button, and the rebuilt map holds a record with that id. A record without one shows "N/A". |
| AppState.FilledIffNonBlank | static/js/app.js:677-686 | A validator passes iff each required field holds a character that is not white space. |
| AppState.ValidateRequired | static/js/app.js:741-747 | The result is true iff every field is non-empty after trimming. On failure the container shows exactly the warning. On success nothing is written. |
| AppState.CallSteps | static/js/app.js:913-921 | The loading message comes first and the producer call second. The display call follows iff the producer succeeded. The last step writes the rendered result or `errorPrefix + ": " + message`. |
| AppState.CallOrder | static/js/app.js:899-922 | The loading message is written before the producer runs. The producer is called once. The display is called once iff the producer succeeded. The container ends on the rendered result or on `errorPrefix + ": " + message`. |
| AppState.Panel.Write | static/js/app.js:927-958 | The container shows the written state, and the log gains that write. |
| AppState.Browser.StrategyAt | static/js/app.js:666-669 | There is a strategy iff a memory is current and the index is within its strategies. |
| AppState.Browser.LoadMemoryDetails | static/js/app.js:149-183 | A successful fetch becomes the current memory. A failed one leaves it as it was. |
| AppState.Browser.RefreshData | static/js/app.js:622-627 | The current memory is cleared. |
| AppState.Browser.OpenNamespaceForm | static/js/app.js:705-727 | For a known strategy, the form's namespace input is prefilled. For an unknown one, nothing changes. The same holds for the retrieve form at static/js/app.js:770-798. |
| AppState.Browser.DisplayEvents | static/js/app.js:963-1020 | A non-empty list replaces the events map with the one built from it and shows the table. A missing or empty list keeps the old map and shows "No events found". |
| AppState.Browser.DisplayRecords | static/js/app.js:1170-1245 | A non-empty list replaces the records map with its id-carrying records, later duplicates winning, and shows the table. A missing or empty list keeps the old map and shows the namespace notice. |
| AppState.Browser.ExecuteApiCall | static/js/app.js:899-922 | A failed validation changes nothing. Otherwise the log gains exactly loading, producer call, then display call and result, or loading, producer call, then the error. The maps change only as the display dictates. |
| AppState.Browser.ExecuteListEvents | static/js/app.js:665-702 | An unknown strategy does nothing. Blank ids show the warning. Otherwise the call runs with "Loading events..." and "Error loading events". A successful non-empty result replaces the events map with the one built from it; otherwise the map is kept. The records map never changes. |
| AppState.Browser.ExecuteListMemoryRecords | static/js/app.js:730-767 | The same, with the namespace warning, "Loading memory records...", and the trimmed namespace under "Memory Records". A successful non-empty result replaces the records map; otherwise it is kept. The events map never changes. |
| AppState.Browser.ExecuteRetrieveMemoryRecords | static/js/app.js:801-852 | The same, with the query-and-namespace warning and "Retrieving memory records...". The title is `Search results for "<query>"`. The records map is rebuilt or kept as for listing. The events map never changes. |
| AppState.Browser.ShowEventJson | static/js/app.js:1023-1031 | A known id opens the viewer on that event, titled "Event: " + id. An unknown id changes nothing. |
| AppState.Browser.ShowRecordJson | static/js/app.js:1248-1256 | A known id opens the viewer on that record, titled "Memory Record: " + id. An unknown id changes nothing. |
| AppState.Browser.HandleJsonViewClick | static/js/app.js:526-543 | "event" and "record" buttons go to their viewers. Any other item type changes nothing. |
| Backend.Iterate | backend.py:148 | A `for` loop visits a list's items, a dict's keys or a string's characters. Any other value raises "'<type>' object is not iterable". |
| Backend.ItemsUnder | backend.py:148 | A missing key visits nothing. |
| Backend.ItemsUnderNullRaises | backend.py:148 | A key present with None raises "'NoneType' object is not iterable". |
| Backend.Filter | backend.py:147-155 | Every kept item validates, and no more items are kept than were given. |
| Backend.FilterKeepsExactlyValid | backend.py:147-155 | An item is kept iff it is an input item and it validates. |
| Backend.FilterAppend | backend.py:148-154 | Filtering distributes over concatenation. An invalid item never stops later items, and the order is kept. |
| Backend.FilterAllValid | backend.py:147-155 | When every item validates, all are kept. |
| Backend.FilterIdempotent | backend.py:147-155 | Filtering twice keeps what filtering once keeps. |
| Backend.KeepValid | backend.py:227-234 | The loop returns exactly the filtered items. |
| Backend.ProcessApiResponse | backend.py:135-155 | The result is the valid items under the key, in order. A missing key gives []. A value that cannot be iterated raises. |
| Backend.BuildPaginatedResponse | backend.py:158-173 | The dict holds the items under `items_key`, and `nextToken` is the response's token or None. There are exactly two keys, unless `items_key` is itself "nextToken". |
| Backend.ListingResponse | backend.py:298-304 | Any client failure, or items that cannot be iterated, gives a 500 with the error text. Otherwise the result is the valid items and the token. |
| Backend.CallListing | backend.py:324-330 | The result is the listing response for the client's answer. |
| Backend.Home | backend.py:178-193 | The request is redirected with status 302 to "/?v=" + uuid, with no caching, iff `v` is missing, empty or different. Otherwise the page is served. |
| Backend.QueryOfRedirect | backend.py:182-185 | The `v` parameter of the redirect target is exactly the build identifier, since an identifier has no `&` or `#`. |
| Backend.RedirectConverges | backend.py:182-193 | Following the redirect once reaches the page, which is not redirected again. |
| Backend.ListEvents | backend.py:247-273 | The keyword arguments are memoryId, sessionId, actorId and maxResults (default 50), plus nextToken iff one is given. The answer is the listing response under "events". |
| Backend.ListMemoryRecords | backend.py:276-304 | The arguments are memoryId, namespace and maxResults (default 50), plus memoryStrategyId and nextToken, each iff given. The answer is under "records". |
| Backend.SearchCriteria | backend.py:317 | The search criteria is an object with the single key `searchQuery`, which holds the query. |
| Backend.RetrieveMemoryRecords | backend.py:307-330 | The arguments are memoryId, namespace, `searchCriteria = {"searchQuery": query}` and maxResults (default 10; null when the request sends null), plus nextToken iff given. |
| Backend.ListMemories | backend.py:196-216 | The result is the valid memory summaries, in order. Every failure gives a 500. |
| Backend.WithStrategies | backend.py:237 | The memory's `strategies` holds the given list, and every other key is unchanged. |
| Backend.FetchedMemory | backend.py:225-238 | A memory that is not a dict fails with "'<type>' object has no attribute 'get'". Strategies that cannot be iterated fail with the TypeError text. Otherwise the memory with its valid strategies, in order, is the answer when it validates, and its validation error is a 500 when it does not. |
| Backend.GetMemory | backend.py:219-244 | An unknown memory gives 404 "Memory not found", and every other failure gives 500. A response without "memory" gives 500 "'memory'". Otherwise the answer is what FetchedMemory gives: a memory that validates after its strategies are filtered is returned, and every failure carries its error text. On success, strategies are replaced by the valid ones in order, the other keys are kept, and the memory validates. |

## Left out

- DOM and HTML: table markup, `escapeHtml`, the strategy tabs and the show/hide toggling are left out. The surface is an abstract state value, and a table is its rows.
- `fetch`, response parsing, the request URLs, and the percent-encoding of query values in the client are left out. The producer's outcome is a `Result` parameter.
- The AWS clients, FastAPI routing, CORS, static mounting and templates are left out. Client calls are parameters, and pydantic's `model_validate` is a given predicate or error function.
- Backend.GetMemory, Backend.ListMemories, Backend.ProcessApiResponse: these return the validated items as the JSON they came from. The pydantic model objects and their serialisation (the `memoryRecordId` alias, for instance) are not modelled.
- The exception texts of the AWS client are an uninterpreted `message`. The Python exceptions the handlers raise themselves (not iterable, missing key, no attribute `get`) are written out.
- Floating-point numbers are not modelled: JSON numbers are integers.
- The model counts string lengths in code points, while JavaScript counts UTF-16 code units, so a preview of text with astral characters may be cut at a different place.
- An object is a sequence of members, and `Lookup` takes the first member with a key. The model does not state that keys are unique, since objects from JSON.parse or a Python dict never repeat one. The member order stands for JavaScript's enumeration order, which puts integer-like keys first, as JSON.parse leaves them; the model does not reorder such keys.
- Formatting.FormatDate: does not model `new Date`, the `* 1000` or `toLocaleString`, because these are locale- and clock-dependent. Only the 'N/A' / 'Invalid Date' dispatch is modelled. A `Date` object never arrives from JSON. A string that `new Date` cannot parse, and an epoch number outside the range of a `Date`, also display 'Invalid Date'. That text comes from `toLocaleString`, not from the early return, and the model does not capture it.
- JsStrings.UpperChar: does not model the full Unicode upper-case mapping. Only the characters that can turn a status into one of the six names matter: a–z, and U+0131, which upper-cases to 'I'.
- The clipboard, the toast, the JSON editor, the modal widget and the `setTimeout` delays (focus, and the 100 ms wait before prefilling) are left out. Opening the viewer is the `inspected` field.
- The ordering of independently triggered asynchronous calls, and the lack of cancellation, are left out. Each call is modelled as running alone.
- The display callbacks read the form inputs again after the producer returns. The model passes the values read at validation time, assuming the user did not edit them meanwhile.
- The lookup maps are plain JavaScript objects. Ids such as "__proto__" or "toString" are treated as ordinary keys.
- A malformed result that makes a display function throw (for instance `events` that is not an array) is left out. Items arrive typed.
- `handleJsonViewClick` on a click outside any JSON button is left out; it returns before dispatching.
- `loadMemories`, `displayMemoryDetails`, `showMemoryInfo` and the memory selector are left out. They only render fields.
- main.py is not part of this model: process launch and browser opening.
