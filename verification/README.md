# WeeRT, modelled in Dafny

WeeRT is a real-time weather service. A weewx extension uploads each archive record to a
Node/MongoDB server as a JSON packet. The server stores the packets per stream and publishes
them to browser clients, which keep a sliding window of recent packets.

This project models the rule-bearing core of each part.

**The uploader (`weert.py`)** — module `WeeRT`:
- the service's configuration gate;
- the packets URL the upload thread forms, from a stream id or by resolving a stream name;
- the lookup and create requests it sends to an abstract server;
- the record-to-payload transform;
- the check of the server's reply.

**The server:**

| module | what it models |
|---|---|
| `Auxtools`, `AuxtoolsOld` | sort and limit query building, and the JSON error body |
| `ErrorRoute` | the error-to-status classification |
| `Auth` | the `insecure` and `simple` permission schemes with their path patterns |
| `PubSub`, `PubSubLegacy` | the two publish/subscribe registries |
| `DbTools` | the time-keyed lookups |
| `StreamService`, `PlatformService` | the validation and the `timestamp`/`_id` renaming of the stream and platform services |
| `LegacyCommon`, `LegacyStreams`, `LegacyPackets`, `LegacyLoop`, `LegacyPlatforms` | the legacy managers |
| `Server` | `normalizePort` |

**The real-time client** — module `RtClient`:
- the window of the initial request;
- the packet buffer: stream filter, append and age trim.

**Shared modules:**
- `JsValue` models the JavaScript values the server code works on:
  - numbers with NaN and the infinities;
  - ToNumber of decimal strings;
  - `new Date(v)` with TimeClip;
  - truthiness;
  - objects updated in place, as a `JsObject` class.
- `UrlParse` models the part of Python 2.7's `urlparse` the uploader calls: `urlsplit` (scheme lower-cased, network location, path, the IPv6 bracket check), `urlunsplit`, and `urljoin` with an absolute path and with a query.
- `Wrappers` holds `Option`, `Result` and `IsEnumeration`. `IsEnumeration` is the order in which a Python dict or a JavaScript `for-in` visits keys. Because that order is not specified, it is a parameter.

MongoDB, the network and the clock are parameters: functions from the request to the reply, the error a collection opens with, or the current time.

**Error paths.** A rejected promise, a Node callback error and a thrown exception each become a `Result` or an outcome datatype. Where the code as written throws — an undeclared variable, a call of a function that does not exist, a read of a property of `undefined` — the model throws too. The one exception is the stream service's factory, which throws at its first statement: the model states that throw (`StreamService.StreamManagerFactoryThrows`, under "Findings") and models the service's functions as the factory would build them with the collection helper it calls. The error paths the model does not follow are listed under "Left out".

## Model

| member | source | states |
|---|---|---|
| WeeRT.StartsThread | weewx_extensions/weert.py:28-38 | a disabled section starts no thread; neither an empty nor a missing `stream_id` and `stream_name` starts one; a non-empty `stream_id` always does |
| WeeRT.GateImpliesConstructible | weewx_extensions/weert.py:28-38 | a section that passes the service's gate (enabled, with a non-empty `stream_id` or `stream_name`) is one the thread's constructor can handle |
| UrlParse.Lower | weewx_extensions/weert.py:125-126 | `lower()` keeps the length, leaves no capital, and maps each character on its own |
| UrlParse.Scheme | weewx_extensions/weert.py:125-126 | the scheme `urlsplit` finds is lower case and made of scheme characters |
| UrlParse.PathWithParams | weewx_extensions/weert.py:255 | the path written back by `urlunparse` is the split path, less at most a final `;`, and exactly the path when it has no `;` |
| UrlParse.Unsplit | weewx_extensions/weert.py:125-126 | `urlunsplit` gives the path alone without scheme and network location, `//netloc` + path without a scheme, and `scheme://netloc` + path for a scheme that has a network location |
| UrlParse.JoinAbsolutePath | weewx_extensions/weert.py:125-126 | `urljoin` with an absolute path: a scheme `urljoin` does not resolve against gives the path alone; otherwise the lower-cased scheme, `://`, the base's network location and the path; a base without scheme keeps `//netloc` when it has one |
| UrlParse.JoinQuery | weewx_extensions/weert.py:255 | `urljoin` with `?query`: the base written back without its query and fragment, `?`, then the query |
| UrlParse.SplitOfOrigin | weewx_extensions/weert.py:125-126 | `scheme://netloc/path` splits back into the lower-cased scheme, the network location and the path |
| UrlParse.HostPortHasNoScheme | weewx_extensions/weert.py:125-126 | `host:port` with an all-digit port (and a host other than `http`) splits into no scheme and no network location |
| UrlParse.JoinOfOrigin | weewx_extensions/weert.py:125-126 | `urljoin(scheme://netloc, path)` is the lower-cased scheme, `://`, the network location and the path when the scheme is resolved against, and the path alone otherwise |
| UrlParse.QueryBaseOfJoin | weewx_extensions/weert.py:255 | a URL `urljoin` built from an absolute path is its own query base: joining `?query` to it appends the query |
| WeeRT.OriginStreamsUrl | weewx_extensions/weert.py:125-126 | for a server `scheme://host[:port]`, the endpoint is the lower-cased scheme, `://`, the host and `/api/v1/streams/` when `urljoin` resolves against the scheme, and `/api/v1/streams/` alone otherwise |
| WeeRT.PlainOriginStreamsUrl | weewx_extensions/weert.py:125-126 | for `http://host[:port]` or `https://host[:port]`, the endpoint is the server URL followed by `/api/v1/streams/` |
| WeeRT.UpperCaseSchemeLowered | weewx_extensions/weert.py:125-126 | `HTTP://host` gives the endpoint `http://host/api/v1/streams/` |
| WeeRT.NonRelativeSchemeGivesPathOnly | weewx_extensions/weert.py:125-126 | `telnet://host` gives the endpoint `/api/v1/streams/`, without the host |
| WeeRT.RStripSpaceSlash | weewx_extensions/weert.py:149 | `rstrip(' /')` gives the longest prefix not ending in a blank or a slash, and drops only blanks and slashes |
| WeeRT.PacketsUrl | weewx_extensions/weert.py:149 | the packets URL ends in `/packets` after the stripped stream URL |
| WeeRT.PacketsUrlShape | weewx_extensions/weert.py:149 | the packets URL's base is a prefix of the stream URL with no trailing blank or slash, and what was cut off is blanks and slashes only |
| WeeRT.StreamIdUrl | weewx_extensions/weert.py:129-131 | the stream URL from an id is the stream endpoint, one added `/`, then the id |
| WeeRT.StreamIdUrlDoubleSlash | weewx_extensions/weert.py:129-131 | for a server `http(s)://host[:port]` and a stream id, the packets URL as written is `<server>/api/v1/streams//<id>/packets`, with an empty path segment |
| WeeRT.StreamIdUrlCorrected | weewx_extensions/weert.py:131 | the corrected stream URL has exactly one slash between the stripped endpoint and the id |
| WeeRT.StreamIdUrlCorrectedSingleSlash | weewx_extensions/weert.py:129-131 | for such a server, with the correction, the packets URL is `<server>/api/v1/streams/<id>/packets` |
| WeeRT.Hex4 | weewx_extensions/weert.py:253 | `\uXXXX` escapes are four lower-case hex digits |
| WeeRT.JsonEscapeChar | weewx_extensions/weert.py:253 | `json.dumps` with `ensure_ascii` writes every character as printable ASCII, and a plain printable character as itself |
| WeeRT.JsonEscape | weewx_extensions/weert.py:253 | an escaped string is printable ASCII throughout |
| WeeRT.JsonEscapePlain | weewx_extensions/weert.py:253 | a name of printable ASCII without quotes or backslashes is written verbatim |
| WeeRT.NameQueryJson | weewx_extensions/weert.py:251-253 | the JSON text of the exact-match name query is printable ASCII |
| WeeRT.NameQueryJsonPlain | weewx_extensions/weert.py:251-253 | for a plain name, the query text is `{"name": {"$eq": "<name>"}}` |
| WeeRT.QuoteChar | weewx_extensions/weert.py:253 | one byte is written as one to three form-safe characters |
| WeeRT.QuotePlus | weewx_extensions/weert.py:253 | `quote_plus` writes at most three characters per byte, and only letters, digits, `_.-`, `+` and `%`, so the value stays one form field |
| WeeRT.HexValue | weewx_extensions/weert.py:253 | the value of an upper-case hex digit is its position among the digits |
| WeeRT.HexRoundTrip | weewx_extensions/weert.py:253 | a byte's two `%XX` digits decode back to the byte |
| WeeRT.UnquoteQuoteChar | weewx_extensions/weert.py:253 | decoding one form-encoded byte gives the byte back, whatever follows |
| WeeRT.UnquoteEscape | weewx_extensions/weert.py:253 | a `%XX` escape decodes to the byte it was written for |
| WeeRT.UnquoteQuotePlus | weewx_extensions/weert.py:253 | form decoding undoes `quote_plus` on every byte string |
| WeeRT.LookupUrl | weewx_extensions/weert.py:250-255 | the lookup URL is the endpoint without its query and fragment, then `?query=`, then form-safe characters only |
| WeeRT.LookupUrlCarriesNameQuery | weewx_extensions/weert.py:250-255 | the lookup URL is the endpoint's query base with the single form field `query`, whose decoded value is the JSON name query |
| WeeRT.LookupUrlOfEndpoint | weewx_extensions/weert.py:250-255 | on the endpoint formed from the server URL, the lookup URL is that endpoint, `?query=` and the encoded query |
| WeeRT.TypedAt | weewx_extensions/weert.py:258 | a URL that starts with scheme characters and `:` has the type `urlopen` needs |
| WeeRT.SlashFirstUntyped | weewx_extensions/weert.py:258 | a URL that starts with `/` (a path, or `//netloc`) has no type, so `urlopen` raises ValueError |
| WeeRT.LookupUrlTypeIff | weewx_extensions/weert.py:255-258 | the lookup URL has a type exactly when the server URL's scheme is non-empty and one `urljoin` resolves against |
| WeeRT.UnresolvableSchemeRaises | weewx_extensions/weert.py:255-258 | a server URL without a scheme, or with a scheme `urljoin` does not resolve against, makes resolution raise ValueError with nothing sent |
| WeeRT.HostPortServerRaises | weewx_extensions/weert.py:125-126 | a server URL `host:port` with an all-digit port has no scheme, so resolution raises ValueError with nothing sent |
| WeeRT.LocalhostPortRaises | weewx_extensions/weert.py:125-126 | the server URL `localhost:3000` makes resolution raise ValueError with nothing sent |
| WeeRT.TelnetServerRaises | weewx_extensions/weert.py:125-126 | a server URL `telnet://host` makes resolution raise ValueError with nothing sent |
| WeeRT.LookupStreamUrl | weewx_extensions/weert.py:240-261 | a lookup URL without a type raises ValueError and sends nothing; otherwise the lookup sends one GET; a URL error is passed on; a body that is not JSON raises ValueError; an array gives its first URL, or None exactly when it is empty; an empty object gives None and any other object raises KeyError(0) |
| WeeRT.ResolveStreamUrl | weewx_extensions/weert.py:198-237 | a lookup URL without a type raises ValueError with nothing sent; otherwise resolution sends the lookup first and at most one more request, which is the create POST; a 201 without a Location header raises KeyError, one whose body is not JSON raises ValueError, and one whose body is an array raises AttributeError at `.get` |
| WeeRT.ResolveFoundSendsNoCreate | weewx_extensions/weert.py:209-213 | a lookup that is sent and finds a non-empty URL sends no create request, and that URL is the result |
| WeeRT.ResolveMissingCreatesOnce | weewx_extensions/weert.py:215-237 | an empty lookup is followed by exactly one POST carrying the name, "Stream for weewx" and "METRICWX"; 201 gives the Location header (KeyError when it is missing, ValueError when the body is not JSON, AttributeError when it is an array), any other status gives None, and a URL error is passed on; an endpoint without a URL type raises ValueError after the lookup alone |
| WeeRT.ResolveLookupErrorStops | weewx_extensions/weert.py:209 | a lookup that fails (a URL without a type, with nothing sent; a URL error, a body that is not JSON, a non-empty object, after the GET) ends resolution with that error, and nothing is created |
| WeeRT.Millis | weewx_extensions/weert.py:166 | `dateTime * 1000` for an int or a float; KeyError when the record has no `dateTime`, TypeError when it is None |
| WeeRT.Abridged | weewx_extensions/weert.py:164 | the abridged record has exactly the selected observation types as keys |
| WeeRT.Stamped | weewx_extensions/weert.py:164-167 | once the timestamp is added, the keys are the selection plus `timestamp` |
| WeeRT.RenamedStep | weewx_extensions/weert.py:169-172 | one more iteration of the rename loop writes the visited key's value under its renamed key |
| WeeRT.RenamedKeys | weewx_extensions/weert.py:169-172 | the renamed dict's keys are exactly the renamed visited keys |
| WeeRT.RenamedLastWriter | weewx_extensions/weert.py:169-172 | a visited key that no later key shares a renamed key with keeps its own value |
| WeeRT.RenamedInjective | weewx_extensions/weert.py:169-172 | without clashes, every key's value arrives under its renamed key, whatever the iteration order |
| WeeRT.RenamedCarries | weewx_extensions/weert.py:169-172 | without clashes, a key of the record arrives with its own value |
| WeeRT.RenamedOrderIndependent | weewx_extensions/weert.py:169-172 | without clashes, the payload is the same for every dict iteration order |
| WeeRT.OnlyTimestampIsTimestamp | weewx_extensions/weert.py:72-79 | only the key `timestamp` is renamed to `timestamp`, because the table neither has nor produces it |
| WeeRT.PayloadKeys | weewx_extensions/weert.py:164-172 | the payload has one key per selected observation, renamed when the table has it, plus `timestamp`; missing observations are not skipped |
| WeeRT.PayloadTimestamp | weewx_extensions/weert.py:167-172 | the payload's `timestamp` is `dateTime * 1000`, whatever the selection holds |
| WeeRT.PayloadValue | weewx_extensions/weert.py:164-172 | a selected observation without a rename clash arrives with the converted record's value, or None when the record lacks it |
| WeeRT.PayloadIgnoresUnselected | weewx_extensions/weert.py:164 | observations outside the selection have no influence on the payload |
| WeeRT.DefaultRenameInjective | weewx_extensions/weert.py:62-79 | the default selection, with `timestamp`, renames without clashes |
| WeeRT.DefaultPayloadOrderIndependent | weewx_extensions/weert.py:62-79 | with the default selection, the payload does not depend on dict order |
| WeeRT.WeeRTThread.constructor | weewx_extensions/weert.py:122-149 | a server URL whose network location has an unmatched `[` or `]` raises ValueError before any request; otherwise, with a stream id, no request is sent and the packets URL comes from the id; otherwise the requests are those of resolution; a URL error is caught and, like an empty result, leaves the packets URL unset; any other error of resolution escapes the constructor (`raised`): the KeyError of a missing `Location` or a non-empty object, the ValueError of a body that is not JSON, the AttributeError of a created stream given as an array; a server URL without a scheme, or with one `urljoin` does not resolve against (`localhost:3000`, `telnet://h`), and no stream id raise ValueError with nothing sent |
| WeeRT.WeeRTThread.ProcessRecord | weewx_extensions/weert.py:154-178 | the post goes to the packets URL with the renamed, stamped, abridged converted record; a missing or None `dateTime`, or an unset packets URL, raises |
| WeeRT.WeeRTThread.CheckResponse | weewx_extensions/weert.py:180-189 | 201 succeeds; otherwise the first body line starting with `Error` is raised, and a body without one is accepted |
| Auxtools.GetSortSpec | server/auxtools.js:33-56 | one key: `_id` for a missing or `timestamp` field, otherwise the field itself; `asc` (the default) gives 1 and `desc` gives -1, matched without case; any other direction fails naming it |
| Auxtools.GetSortSpecDefault | server/auxtools.js:35-36 | with neither argument, the sort is `{_id: 1}` |
| Auxtools.FormDbQuery | server/auxtools.js:58-74 | no query gives `{sort: {_id: 1}, limit: 0}`; the sort error comes first; the limit is 0 when absent, and otherwise the integer its text converts to, or the "Invalid value for limit" error |
| Auxtools.FormDbQueryEmptyQuery | server/auxtools.js:58-74 | a query with no parameters means the same as no query |
| Auxtools.FormDbQueryLimitRoundTrip | server/auxtools.js:68-72 | a limit written as a decimal integer is read back as that integer |
| Auxtools.FromError | server/auxtools.js:23-31 | the body has `message` and `code`, and `description` exactly when the error's description is truthy |
| AuxtoolsOld.FromError | server.old/auxtools.js:23-31 | the same body in the earlier copy: no other keys, `description` present if and only if truthy |
| ErrorRoute.SendError | server/routes/error.js:12-34 | a refused connection gives 500 with "Perhaps MongoDB is not running?", a missing strict collection a bare 404, a duplicate key 409 with "Duplicate key error", any other MongoError 400, and every other error 400; the checks run in that order |
| ErrorRoute.BodyCodeIsStatus | server/routes/error.js:17-32 | every JSON error body's `code` is the status it is sent with |
| ErrorRoute.StatusIsKnown | server/routes/error.js:12-34 | the status is 400, 404, 409 or 500, and there is no body exactly for 404 |
| ErrorRoute.RefusedConnectionFirst | server/routes/error.js:15-17 | a refused connection is 500 even when the message also names a missing collection |
| ErrorRoute.NoSuchIdIsBadRequest | server/routes/error.js:30-32 | a `NoSuchIDError` is answered 400 with its message |
| Auth.Insecure | server/services/auth.js:15-17 | every request is granted |
| Auth.IdPathMatches | server/services/auth.js:26-29 | every `[/]<collection>/<lower-case hex>/<member>[/]` endpoint matches the pattern |
| Auth.MatchesIsIdPath | server/services/auth.js:26-29 | every matching endpoint has that form |
| Auth.UpperCaseIdRejected | server/services/auth.js:27 | an id with upper-case hex digits fails the pattern |
| Auth.Simple | server/services/auth.js:31-57 | GET is always granted, and a rejection is always "Unknown usergroup or verb" |
| Auth.DatastreamAsWritten | server/services/auth.js:39-45 | a data stream is granted exactly POST to a packet path, or anything on a location path, and is otherwise denied |
| Auth.DatastreamMayDeleteLocations | server/services/auth.js:41 | as written, a data stream may DELETE a platform's locations |
| Auth.SimpleCorrected | server/services/auth.js:39-45 | the corrected rule grants a data stream only POST to a packet or a location path, and agrees with `simple` for other groups |
| Auth.CorrectedDatastreamOnlyPosts | server/services/auth.js:39-45 | with the correction, a data stream is granted nothing but GET and POST |
| Auth.MatrixRights | server/services/auth.js:21-24 | `admin` may DELETE, POST and PUT; `field` may POST and PUT but not DELETE; an unlisted verb is rejected |
| Auth.UnknownGroupRejected | server/services/auth.js:47-55 | a group outside the matrix is rejected for every verb but GET |
| PubSub.Subscribed | server/pubsub.js:8-15 | subscribing appends the callback to the channel's list, creating it if absent, and leaves other channels alone |
| PubSub.SpliceStart | server/pubsub.js:24 | splice's start index lies within the list |
| PubSub.Splice | server/pubsub.js:24 | splice removes `count` entries from `start`, or all from `start` when fewer remain; the entries before `start` stay, and the later ones move down in order |
| PubSub.SpliceStartOfFunction | server/pubsub.js:24 | a function given as splice's start converts to index 0 |
| PubSub.UnsubscribedRemovesFirst | server/pubsub.js:17-33 | as written, unsubscribing a present callback removes the channel's first entry, returns how many are left, and deletes the emptied channel |
| PubSub.UnsubscribedAbsent | server/pubsub.js:21-33 | an unknown channel or an absent callback changes nothing and returns undefined |
| PubSub.UnsubscribedFrame | server/pubsub.js:6-33 | unsubscribing keeps every other channel as it was and leaves no empty channel |
| PubSub.UnsubscribeRemovesWrongCallback | server/pubsub.js:22-25 | subscribing 1 and 2, then unsubscribing 2, leaves 2 subscribed and 1 gone |
| PubSub.IndexOf | server/pubsub.js:22-23 | the loop's index is the first entry equal to the callback |
| PubSub.CorrectedRemovesOwnCallback | server/pubsub.js:22-29 | with the correction, exactly the matched callback is removed; the rest stay as a multiset and in order |
| PubSub.CorrectedSubscribeUnsubscribe | server/pubsub.js:8-33 | with the correction, subscribing a new callback and unsubscribing it restores the registry |
| PubSub.CorrectedKeepsOtherCallback | server/pubsub.js:22-25 | the corrected registry keeps callback 1 in the example the code as written gets wrong |
| PubSub.Registry.constructor | server/pubsub.js:6 | the registry starts with no channels |
| PubSub.Registry.Subscribe | server/pubsub.js:8-15 | the new channels are `Subscribed` of the old, with no empty channel, and the handle is `[channel, callback]` |
| PubSub.Registry.Unsubscribe | server/pubsub.js:17-33 | the search loop and splice give the channels and count of `Unsubscribed` |
| PubSub.Registry.Publish | server/pubsub.js:35-41 | every callback of the channel is called once, in subscription order, with `self` and the message; an unknown channel calls nothing |
| PubSubLegacy.Subscribe | pubsub.js:8-16 | the older `subscribe` appends as the server's does and returns the handle |
| PubSubLegacy.Publish | pubsub.js:35-43 | the older `publish` calls every callback once, in order; an unknown channel is a no-op |
| PubSubLegacy.Unsubscribe | pubsub.js:18-33 | on an existing channel the older `unsubscribe` fails with a ReferenceError for `callback_list`; an unknown channel is a no-op |
| PubSubLegacy.UnsubscribedCorrected | pubsub.js:22-31 | reading the channel's own list, the matched callback is removed and an emptied channel deleted |
| DbTools.StoredForm | server/services/stream.js:174-176 | the stored record has `_id` as the Date of `timestamp`, no `timestamp`, and every other field unchanged |
| DbTools.ApiForm | server/dbtools.js:70-75 | a record whose `_id` is a Date comes back with `timestamp` in milliseconds, no `_id`, and the other fields untouched; any other `_id` throws |
| DbTools.StoredFormRoundTrip | server/services/stream.js:174-190 | a record with an in-range integer timestamp and no `_id` comes back from storage exactly as posted |
| DbTools.WindowQuery | server/dbtools.js:10-35 | `start` defaults to 0, `stop` to now, `limit` to 0 and `sort` to `{_id: 1}`; each is converted with `+`; the query goes out exactly when all three are integers; otherwise the error names the first bad one, in the order `start`, `stop`, `limit` |
| DbTools.WindowQueryDefaults | server/dbtools.js:10-13 | with no options the window runs from the epoch to now, unlimited, ascending |
| DbTools.WindowQueryOfNumbers | server/dbtools.js:10-12 | the query depends on the options only through the numbers they convert to |
| DbTools.WindowBounds | server/dbtools.js:27-35 | for in-range integer bounds, the window selects exactly `start < t <= stop` |
| DbTools.WindowOfDecimalText | server/dbtools.js:10-35 | bounds written as decimal text select the same window as the numbers |
| DbTools.WindowOfText | server/dbtools.js:10-35 | any texts that convert to the bounds select that window |
| DbTools.FindByTimestamp | server/dbtools.js:5-51 | as written: an invalid argument rejects naming it, a collection error rejects with that error, and a query that succeeds rejects with a ReferenceError for `results` |
| DbTools.FindByTimestampNeverResolves | server/dbtools.js:39-46 | as written, `findByTimestamp` never resolves: a successful query rejects with a ReferenceError for `results` |
| DbTools.InvalidArgumentsRejectBeforeQuery | server/dbtools.js:15-26 | invalid arguments reject with "Invalid value" for the first bad argument (`start`, then `stop`, then `limit`) before any query, whatever the collection |
| DbTools.FindByTimestampCorrected | server/dbtools.js:5-51 | reading `result`, every record found is handed back in API form, in order, or the first rename error |
| DbTools.FindOneByTimestamp | server/dbtools.js:53-80 | a non-integer timestamp rejects; the lookup is an exact match; no match gives null; the first match comes back in API form |
| DbTools.FindOneFindsStoredRecord | server/dbtools.js:53-80 | a stored packet is found by its own timestamp and comes back exactly as posted |
| JsValue.IntToStringToNumber | server/dbtools.js:10-12 | unary `+` on the decimal text of any integer gives that integer |
| JsValue.TimeClip | server/services/stream.js:175 | the time a Date stores is NaN or an integer, and an in-range integer is kept |
| JsValue.NewDate | server/services/stream.js:175 | `new Date(v)` is always a Date |
| StreamService.StreamManagerFactory | server/services/stream.js:21-25 | the factory builds the manager exactly when `dbtools` exports `promiseACollection`, and otherwise throws the TypeError "dbtools.promiseACollection is not a function" |
| StreamService.StreamManagerFactoryThrows | server/services/stream.js:25 | with `dbtools` exporting only `findByTimestamp` and `findOneByTimestamp` (server/dbtools.js:82-85), the factory throws that TypeError, so no stream function is ever created |
| StreamService.StreamManagerFactoryCorrectedBuilds | server/services/stream.js:21-25 | once `dbtools` exports `promiseACollection`, the factory builds the manager |
| StreamService.StreamMetadataCheck | server/services/stream.js:37-43 | metadata passes exactly when it has no `_id` and a truthy `unit_group`, and the `_id` check comes first |
| StreamService.CreateStream | server/services/stream.js:35-68 | check failures reject first; success means the insert went through and the packet collection was created under the new `_id` |
| StreamService.CreateStreamChecksFirst | server/services/stream.js:36-43 | metadata that fails the checks is rejected whatever the database would do |
| StreamService.CreateStreamRequiresUnitGroup | server/services/stream.js:41-43 | a stream without a unit group is never created |
| StreamService.PacketCheck | server/services/stream.js:166-173 | a packet passes exactly when it has a timestamp and no `_id`, with the timestamp check first |
| StreamService.NoSuchStream | server/services/stream.js:181-183 | the error is a `NoSuchIDError` "Non existent stream <id>" |
| StreamService.InsertedPacket | server/services/stream.js:164-197 | the check error, then `NoSuchIDError`, then the insert error; on success, the packet's fields with `timestamp` as the stored time |
| StreamService.InsertOnePacket | server/services/stream.js:164-197 | the caller's packet is renamed in place to its stored form, and renamed back on success; the result is `InsertedPacket` |
| StreamService.InsertedPacketRoundTrip | server/services/stream.js:174-190 | an in-range integer timestamp without `_id` comes back from a successful insert unchanged |
| StreamService.DeleteFilter | server/services/stream.js:265-272 | the delete targets a Date, the query's timestamp when in range |
| StreamService.DeleteOnePacket | server/services/stream.js:263-279 | the collection's open error rejects; otherwise the delete of that Date |
| StreamService.DeleteTargetsStoredPacket | server/services/stream.js:265-272 | a stored packet's timestamp, written in decimal, targets exactly its `_id` |
| StreamService.DeleteWithoutTimestampMatchesNothing | server/services/stream.js:265-272 | a query without a timestamp targets the invalid date, which no stored packet has |
| PlatformService.PlatformMetadataCheck | server/services/platform.js:39-44 | metadata passes exactly when it has no `_id` and a truthy `name` |
| PlatformService.WithStreams | server/services/platform.js:47-49 | `streams: []` is added only when it is absent; an existing list is kept |
| PlatformService.WithStreamsIdempotent | server/services/platform.js:47-49 | adding the default list twice is adding it once |
| PlatformService.CreatedPlatform | server/services/platform.js:51-70 | success means the insert went through and the locations collection was created; an insert error rejects |
| PlatformService.CreatePlatform | server/services/platform.js:37-72 | rejected metadata is left as it was; accepted metadata gets its default streams list in place and is inserted |
| PlatformService.CreatedPlatformHasStreams | server/services/platform.js:45-49 | a created platform always has a streams list, and a supplied one is kept |
| PlatformService.MismatchErrorCorrected | server/services/platform.js:81-84 | the intended error has the message "Mismatch in platformID" and names both ids |
| PlatformService.BadIdError | server/services/platform.js:88-93 | an ObjectID failure gains the description "Unable to form ObjectID for platformID of <id>" |
| PlatformService.SetDocument | server/services/platform.js:102-106 | the `$set` document is the metadata without `streams` and `_id` |
| PlatformService.UpdateOnePlatform | server/services/platform.js:75-115 | a mismatched `_id`, then a bad id, then a collection that does not open, reject in that order; otherwise the update with the `$set` document; when the database connection fails the promise stays pending |
| PlatformService.UpdateNeverSettlesWhenDatabaseDown | server/services/platform.js:97-113 | as written, an update whose checks pass never settles when the database connection fails |
| PlatformService.UpdateOnePlatformCorrected | server/services/platform.js:97-113 | with `.catch(reject)` on the connection, a connection failure rejects with its error, and every other case settles as written |
| PlatformService.UpdateCorrectedReportsDatabaseDown | server/services/platform.js:97-113 | with the correction, a refused connection reaches the client as a 500 |
| PlatformService.UpdateWithOwnIdGoesThrough | server/services/platform.js:80-109 | metadata carrying its own platform's id updates that platform, and touches neither `_id` nor `streams` |
| PlatformService.MismatchDetailsLost | server/services/platform.js:80-85 | as written, a mismatch reaches the client as a 400 whose message is "[object Object]" with no description |
| PlatformService.MismatchCorrectedReported | server/services/platform.js:81-84 | with the intended error, the 400 reports the mismatch and both ids |
| PlatformService.DeleteOnePlatform | server/services/platform.js:124-179 | it rejects exactly on a bad id (with its description) or a failed database connection (with that error); a missing collection or a failed delete reports `{ok: 1, n: 0}`, and a delete that went through reports the driver's result |
| PlatformService.DeleteReportsDatabaseDown | server/services/platform.js:138-177 | a delete while the database refuses connections reaches the client as a 500 |
| PlatformService.LocationCheck | server/services/platform.js:241-248 | a location record passes exactly when it has a timestamp and no `_id` |
| PlatformService.InsertedLocation | server/services/platform.js:239-270 | the check error, then the insert error; on success, the record's fields with `timestamp` as the stored time |
| PlatformService.InsertOneLocation | server/services/platform.js:239-270 | the caller's record is renamed in place and back; the result is `InsertedLocation` |
| PlatformService.InsertedLocationRoundTrip | server/services/platform.js:249-264 | an in-range integer timestamp without `_id` round-trips unchanged |
| JsValue.NotAFunction | server/streams.js:56 | calling a missing helper throws a TypeError naming it |
| LegacyCommon.ManagerOptions | server/streams.js:11 | falsy options give the capped-collection default, and truthy ones are kept |
| LegacyCommon.CollectionOptions | server/streams.js:38 | the options `createCollection` is given are the manager's `collection` option, or undefined |
| LegacyCommon.DefaultCollectionOptions | server/streams.js:11 | with no manager options, collections are created capped, with size 1000000 and max 3600 |
| LegacyCommon.CloneForStorage | server/streams.js:26-35 | the for-in clone loop builds `Cloned` over the visited keys |
| LegacyCommon.ClonedContents | server/streams.js:26-35 | the clone holds exactly the visited, non-skipped keys other than `timestamp`, copied, plus `_id` as the Date of `timestamp` |
| LegacyCommon.StoredClone | server/streams.js:26-35 | the whole clone renames `timestamp` to `_id`, leaves out skipped keys, and copies the rest |
| LegacyCommon.ClonedIsStoredClone | server/streams.js:26-35 | whatever the for-in order, the clone of a packet without both `timestamp` and `_id` is its stored clone |
| LegacyCommon.StoredCloneIsStoredForm | server/streams.js:26-35 | a packet with a timestamp and no `_id` is stored just as the current stream service stores it |
| LegacyCommon.ClonedDependsOnOrder | server/streams.js:27-33 | a packet with both `timestamp` and `_id` clones differently depending on the for-in order |
| LegacyCommon.SortRenamed | server/packets.js:42-45 | a defined `_id` sort key becomes `timestamp` with the same direction |
| LegacyCommon.SortRenamedIdempotent | server/packets.js:42-45 | the rename leaves no `_id`, so a second rename changes nothing |
| LegacyCommon.RenameSortKey | server/packets.js:42-45 | the caller's sort object is renamed in place |
| LegacyStreams.PacketCollectionName | server/streams.js:5-7 | the name is `streams_`, then exactly the id, then `_packets` |
| LegacyStreams.PacketCollectionNameInjective | server/streams.js:5-7 | distinct streams have distinct packet collections |
| LegacyStreams.InsertOne | server/streams.js:21-46 | a missing stream id is reported at once; the collection is created with the manager's collection options; a collection error is reported; otherwise the clone is inserted |
| LegacyStreams.CopyOptions | server/streams.js:50-55 | the options copy has every own key and value |
| LegacyStreams.Find | server/streams.js:48-66 | after the copy, the call of the missing `dbtools.getSortSpec` throws |
| LegacyPackets.PacketCollectionName | server/packets.js:25 | the name is `packets_<id>` |
| LegacyPackets.InsertOne | server/packets.js:10-35 | a missing stream id is reported; otherwise the clone is built and the call of `dbtools.createCollection` throws |
| LegacyPackets.Find | server/packets.js:38-56 | the caller's sort is renamed in place; an open error is reported; otherwise `dbtools.find` throws |
| LegacyLoop.LoopCollectionName | server/loop.js:27 | the name is `loop_<instrument>` |
| LegacyLoop.InsertOne | server/loop.js:10-37 | a packet without an instrument is reported; otherwise the clone without the instrument is built and `dbtools.createCollection` throws |
| LegacyLoop.LoopCloneDropsInstrument | server/loop.js:15-26 | the loop clone never carries `instrument` and carries every other field |
| LegacyLoop.Find | server/loop.js:40-59 | the caller's sort is renamed in place; an open error is reported; otherwise `dbtools.find` throws |
| LegacyPlatforms.LocationsCollectionName | server/platforms.js:10-12 | the name is `platforms_`, then exactly the id, then `_locations` |
| LegacyPlatforms.LocationsCollectionNameInjective | server/platforms.js:10-12 | distinct platforms have distinct location collections |
| LegacyPlatforms.CreatePlatform | server/platforms.js:19-34 | the metadata gets `streams: []` in place only when absent; an open error is reported; a failed insert throws on reading `ops`; otherwise the stored metadata |
| LegacyPlatforms.LimitOption | server/platforms.js:40-44 | the limit is 0 when absent; otherwise the integer it converts to, or the offending number |
| LegacyPlatforms.LimitOptionRoundTrip | server/platforms.js:40-44 | a decimal limit is read back as that integer |
| LegacyPlatforms.FindPlatforms | server/platforms.js:36-53 | the call of the missing `dbtools.getOptions` throws a TypeError |
| LegacyPlatforms.FindPlatform | server/platforms.js:55-73 | the callback always gets the outcome: the open error, the ObjectID exception, or the platforms found |
| Server.DigitRun | server/server.js:200 | the run of leading decimal digits is maximal |
| Server.LeadingValue | server/server.js:200 | there is a value exactly when the text starts with a digit |
| Server.ParseInt | server/server.js:200 | `parseInt(val, 10)` is NaN exactly when no digit follows the white space and the optional sign |
| Server.SignedLeadingValue | server/server.js:200 | a negative value needs a leading minus sign |
| Server.ParseIntOfNumeral | server/server.js:200 | `parseInt` reads back any printed integer, whatever non-digit text follows |
| Server.NormalizePort | server/server.js:199-213 | a value that does not parse is kept as a named pipe; a parsed value of at least 0 is the port; a negative one is false |
| Server.NormalizePortOfNumber | server/server.js:199-213 | a decimal port, with any non-digit tail, normalises to that port |
| Server.NormalizePortOfNegative | server/server.js:207-212 | a negative number normalises to false |
| Server.DefaultPort | server/server.js:10 | the default `'3000'` normalises to 3000 |
| Server.NamedPipeKept | server/server.js:202-205 | a name that starts with neither a sign, a digit nor white space is kept as a named pipe |
| RtClient.InitialWindow | client/rt/rt.js:71-72 | the initial window ends now and spans `max_initial_age_secs` (1200) seconds |
| RtClient.InitialQuery | client/rt/rt.js:71-74 | the initial URL's query, as lookup options: `start` and `stop` as text, no `limit` or `sort` |
| RtClient.InitialQueryReadsBack | client/rt/rt.js:71-74 | unary `+` reads the texts back as `now - 1200000` and `now` |
| RtClient.InitialDataUrl | client/rt/rt.js:74 | the URL is the host's stream packets path, then `?start=`, the start text, `&stop=` and the stop text, each at its exact place |
| RtClient.InitialWindowSelects | client/rt/rt.js:69-74 | given to `DbTools.WindowQuery`, the query the initial URL carries selects exactly the packets of the last 1200 seconds |
| RtClient.ReadError | client/rt/rt.js:139 | reading `timestamp` of undefined is a TypeError |
| RtClient.TimestampOf | client/rt/rt.js:135 | reading `.timestamp` fails exactly on undefined and null |
| RtClient.AgeTrim | client/rt/rt.js:138-141 | the trim keeps a suffix, drops only stale packets from the front, and stops at a packet that is not stale, or fails |
| RtClient.AllStaleTrimFails | client/rt/rt.js:139-141 | as written, when every packet is stale the loop empties the array and then throws |
| RtClient.StalePacketOnEmptyBufferFails | client/rt/rt.js:136-141 | an empty buffer and one stale new packet make the handler throw |
| RtClient.AgeTrimCorrected | client/rt/rt.js:139-141 | with the length test, an emptied buffer ends the loop without error |
| RtClient.AgeTrimCorrectedAgrees | client/rt/rt.js:139-141 | the corrected trim keeps what the written one keeps, and differs only where the written one runs out and throws |
| RtClient.AgeTrimCorrectedOfObjects | client/rt/rt.js:139-141 | the corrected trim of a buffer of packet objects never fails |
| RtClient.Client.Trim | client/rt/rt.js:138-141 | the shift loop leaves the buffer and the error of the written trim `AgeTrim` of the old buffer |
| RtClient.TrimKeepsRecentPacket | client/rt/rt.js:136-141 | after a successful trim, a fresh packet is the last element of the buffer |
| RtClient.Client.constructor | client/rt/rt.js:11-18 | the client follows its stream id, starts with an empty buffer, and is not yet listening for packets |
| RtClient.Client.InitialData | client/rt/rt.js:76-90 | status 200 replaces the buffer with the parsed body; any other status keeps it; both report no error, and the client then listens for packets |
| RtClient.Client.OnPacket | client/rt/rt.js:131-141 | only a listening client gets packets; a message for another stream changes nothing; a packet without a readable timestamp throws before it is stored; otherwise the buffer is the written trim of the old buffer plus the packet |

## Left out

- MongoDB is not modelled. Each driver call (collection open, insert, update, delete, find, createCollection, dropCollection) is a parameter giving its result or its error. This covers the construction of an ObjectID from a platform id, and the driver's `result.ops[0]` being the inserted object itself.
- The rename in place of the records a find returns (`server/dbtools.js:42-45`, `:73-74`) is modelled as a value transform, `DbTools.ApiForm`. The driver hands out fresh objects, so no caller sees the difference.
- `JSON.parse` of a reply body is not modelled: the parsed value is a parameter. The same goes for the response body of `checkresponse`, which is given as its lines.
- `new Date(string)` parses calendar dates in the JavaScript engine. The model gives every string an invalid date. Only numbers and Dates are given real time values.
- `ToNumber` covers decimal literals with sign, fraction and exponent, `Infinity`, and the `0x`/`0o`/`0b` radix prefixes. ECMAScript's rounding of a decimal to the nearest double is not modelled: numbers are exact reals.
- The weewx side that is not in `weert.py` is not modelled:
  - `weewx.restx.RESTThread`: queue bounding, the staleness drop, retries, `get_record`, `post_with_retries` and the worker thread;
  - `check_enable`.
  
  `get_record` and `to_METRICWX` are uninterpreted function parameters of `ProcessRecord`. syslog output is left out.
- `WeeRT.WeeRTThread.constructor` models the thread's own fields only. The service starts the thread even when the constructor returned before setting `packets_url` (`weewx_extensions/weert.py:44-47`). Then every later `process_record` raises AttributeError, which `ProcessRecord` reports.
- With a stream id, a server URL whose scheme `urljoin` does not resolve against gives a packets URL that is a bare path (`/api/v1/streams/<id>/packets`). The constructor sets it without sending anything. `urlopen` would refuse it with ValueError in the retrying sender, which is not modelled.
- `urllib2`'s `unwrap` of a URL (surrounding blanks, `<URL:...>`) is not modelled: the URLs `urljoin` builds here start with a scheme character or `/`.
- A reply body is modelled as not JSON, an array of strings, or an object given by its keys (`weewx_extensions/weert.py:231-233`, `:260-261`). Array items that are not strings and bare JSON scalars are not modelled.
- `urlparse` is modelled for the two calls the uploader makes (`weewx_extensions/weert.py:125-126`, `:255`). The NFKC check Python 2.7 applies to a unicode network location, and the fragment, are not modelled: the server URL is a byte string, and neither call's reference has a fragment.
- `WeeRT.Millis`: a float `dateTime` is an exact real, so the rounding of `dateTime * 1000` to a double is not modelled.
- `Server.ParseInt`: the result is an exact integer, so the loss of precision of `parseInt` beyond 2^53 is not modelled.
- `RtClient.InitialWindowSelects`: the window is connected to the server's `WindowQuery`, but the route that would receive the request (`server/routes/stream_routes.js:180`) calls `auxtools.formSpanQuery`, which does not exist, and answers 400. That route is not part of this model.
- Python 2 strings: the stream name is the text `json.dumps` decodes, as code points. Its output is ASCII, so `quote_plus` sees bytes, modelled as characters below 256. A byte-string name that is not valid UTF-8, on which `json.dumps` raises, is not modelled.
- urllib2 raises HTTPError for error statuses. The model folds this into the server oracle's `UrlError` reply.
- `resourcePath` in both auxtools files is not modelled: it is URL-library formatting.
- The legacy `findOne` and `aggregate` of `server/packets.js` and `server/streams.js` only open a collection and call dbtools helpers that do not exist. The model stops at such calls, as for `find`.
- The legacy `findPlatforms` throws at its first statement (`server/platforms.js:39`). So its limit rule, `LegacyPlatforms.LimitOption`, is modelled on its own and is unreachable in the code as written.
- `LegacyPlatforms.FindPlatform` is given the ObjectID exception and the driver's answer as parameters. The query itself is the driver's.
- `PubSub.Registry.Publish` returns the calls it makes instead of making them. What a callback does, and a callback that subscribes or unsubscribes while being called, are not modelled.
- `ErrorRoute.SendError` writes `err.description` on the caller's error object. The model passes the updated copy to `fromError`, and does not show the change to the caller's object.
- Property names that objects inherit from `Object.prototype` are not modelled. In the code, the group test `usergroup in groups` (`server/services/auth.js:48`), a pubsub channel named `toString`, and `?sort=__proto__` would find the inherited member. The model treats an object as its own keys only.
- A connection failure of the database promise in `createStream`, `insertOnePacket`, `deleteOnePacket`, `createPlatform` and `insertOneLocation` rejects through their `.catch(reject)`. The model folds it into the error of the collection open or of the insert.
- `ErrorRoute.SendError`: for a message that is not a string, the engine's TypeError text is not modelled; one TypeError text stands for all.
- Callbacks are compared by identity. Non-function values passed as callbacks are not modelled.
- Time comes from parameters (`now`). `Date.now()` is not called.
- The DOM, the charts, the Handlebars templates, the wind compass and `formatNumber` in `client/rt/rt.js` are not modelled.
- `async.parallel` is not modelled. The packet handler is registered only in `updatePlot`, once the initial data has arrived (`client/rt/rt.js:122-131`, `:163`). So `Client.OnPacket` requires a client that `Client.InitialData` has set listening.
- Repeated query parameters, which Express parses as arrays, are not modelled: query parameters are strings or absent.
- The code is followed where the tests disagree with it:
  - `server/spec/stream_spec.js:26-34` expects a stream without `unit_group` to be created, but `createStream` rejects it (`StreamService.CreateStreamRequiresUnitGroup`);
  - `server/spec/platform_spec.js:197-204` expects a platform without `name` to be created, but `createPlatform` rejects it.

## Findings

| source | as written | input that shows it | evidently intended | confidence | as-written member | corrected member |
|---|---|---|---|---|---|---|
| server/pubsub.js:24 | `splice(channels[channel][i], 1)` passes the callback, which converts to start index 0, so the channel's first entry is removed | subscribe callbacks 1 then 2 to `packets`, then unsubscribe 2: callback 1 is removed and 2 stays | `splice(i, 1)` | high; not executed | PubSub.UnsubscribeRemovesWrongCallback | PubSub.CorrectedKeepsOtherCallback |
| pubsub.js:23 | the loop bound reads the undeclared `callback_list` | `unsubscribe` of any handle whose channel exists throws a ReferenceError | `channels[channel].length` | high; not executed | PubSubLegacy.Unsubscribe | PubSubLegacy.UnsubscribedCorrected |
| server/dbtools.js:42 | the handler's parameter is `result`, but the loop reads `results` | any `findByTimestamp` whose arguments are valid and whose query succeeds rejects | read `result` | high; not executed | DbTools.FindByTimestampNeverResolves | DbTools.FindByTimestampCorrected |
| server/services/auth.js:41 | `verb === 'POST' && packet \|\| location` groups as `(POST and packet) or location` | group `datastream`, verb DELETE, endpoint `/platforms/5a1f/locations` is granted | `verb === 'POST' && (packet \|\| location)` | high; not executed | Auth.DatastreamMayDeleteLocations | Auth.CorrectedDatastreamOnlyPosts |
| weewx_extensions/weert.py:131 | the stream endpoint already ends in `/`, and another `/` is added before the id | server `http://localhost:3000` (any `http` or `https` server without a path), stream id `abc` gives `http://localhost:3000/api/v1/streams//abc/packets` | one slash between the endpoint and the id | medium; not executed | WeeRT.StreamIdUrlDoubleSlash | WeeRT.StreamIdUrlCorrectedSingleSlash |
| server/services/platform.js:81-84 | `new Error({...})` converts the object to its string, so the message is "[object Object]" | update platform `y` with metadata `_id` `x`: the reply is 400 with message "[object Object]" and no description | an error with message "Mismatch in platformID" and the description | high; not executed | PlatformService.MismatchDetailsLost | PlatformService.MismatchCorrectedReported |
| server/services/platform.js:97-113 | `updateOnePlatform` has no `.catch` on the database promise, so a failed connection is never passed to `reject` | update any platform with valid metadata while MongoDB is down: the promise never settles and the request hangs | `.catch(reject)` as in `deleteOnePlatform` | high; not executed | PlatformService.UpdateNeverSettlesWhenDatabaseDown | PlatformService.UpdateCorrectedReportsDatabaseDown |
| server/services/stream.js:25 | the factory calls `dbtools.promiseACollection`, which `server/dbtools.js` does not export (it exports only `findByTimestamp` and `findOneByTimestamp`) | any use of the stream service: `StreamManagerFactory(connectPromise, options)` throws "TypeError: dbtools.promiseACollection is not a function", so `createStream`, `insertOnePacket` and `deleteOnePacket` never exist | a `dbtools` helper that opens (creating if needed) the metadata collection | high; not executed | StreamService.StreamManagerFactoryThrows | StreamService.StreamManagerFactoryCorrectedBuilds |
| client/rt/rt.js:139 | the trim loop reads `dataset[0].timestamp` after it has emptied the array | an empty buffer and a new packet more than an hour old make the handler throw | stop when the buffer is empty | high; not executed | RtClient.StalePacketOnEmptyBufferFails | RtClient.AgeTrimCorrectedAgrees |
