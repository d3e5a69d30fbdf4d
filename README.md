# Dipto downloader: the provider-fallback loop

This project models the one piece of decision logic in the repository: the sequential provider-fallback loop. It appears twice in almost the same form:

- `download(url)` in `index.js` resolves to a result object or throws an `Error`;
- `handler(req, res)` in `api/download.js` writes one HTTP reply instead.

Both copies do the same work. They build a fixed table of five providers (TiklyDown, TikTok Official, Cobalt, Noobs API, TikWM). They merge the default headers with each row's own headers and add a JSON `Content-Type` to POST requests. They then call the providers one at a time. The first response that passes the acceptance test is returned. The last provider is special: an unaccepted answer from it is still returned, with a warning, and an error from it becomes the "All 5 API endpoints failed" error.

The network is an oracle. `net: seq<Outcome>` holds one outcome per table row. An outcome is a 2xx answer (parsed data, content type, status), an HTTP error (status, error body, axios message) or a transport error (axios message). `encodeURIComponent` is the opaque parameter `encode`.

Modules, leaves first:

- `JsValues` (`js_values.dfy`): JSON-like JavaScript values, truthiness, optional property access, and how a value prints inside a template literal.
- `Endpoints` (`endpoints.dfy`): the provider table, the header merge, and `extractTikTokId` (the first match of `/\/video\/(\d+)/`).
- `Fallback` (`fallback.dfy`): the acceptance test, the loop as the recursive specification function `Run`, the text of the all-failed error, and the lemmas about them (first accepted wins, last-provider policy, exactly one terminal result).
- `Download` (`download.dfy`): `download` as a method with a `while` loop, proved against `DownloadSpec`.
- `ApiHandler` (`api_handler.dfy`): `handler` as a method that writes into a `ServerResponse` object, proved against `HandlerSpec`, and proved to agree with `download`.

The code has no URL shortener expansion, no platform classification and no per-platform filtering of providers. Its failure result carries no list of tried providers and no troubleshooting hints. It does not re-parse a response whose content type is wrong. The model has none of these either.

## Model

| member | source | states |
|---|---|---|
| `JsValues.Truthy` | index.js:5 | `!url` and the `||` chains follow JavaScript truthiness. `null` and `undefined` are falsy, every array and object is truthy (even an empty one), and a string is truthy exactly when it is non-empty |
| `JsValues.NatToString` | index.js:117 | a status code prints as its decimal digits, with no leading zero, and reading the digits back gives the status |
| `Endpoints.RequestHeaders` | index.js:65-76 | the request headers hold exactly the default keys, the row's keys and, for POST, `Content-Type`. A row header beats a default with the same name, and the JSON `Content-Type` beats both |
| `Endpoints.Prepare` | index.js:65-79 | the loop body builds its header object by spreading the defaults with the row's headers and then setting `Content-Type` for POST. The request it sends is the row's method, URL, those merged headers and the row's body |
| `Endpoints.TableRequests` | index.js:58-79 | one call prepares five requests at most, one per row, in row order, with the row's method and URL. Exactly the POST requests (Cobalt and TikWM) carry `Content-Type`, and its value is `application/json` |
| `Endpoints.DigitRun` | index.js:54 | the greedy `\d+` capture is a non-empty run of digits when a digit starts it, and it stops at the end of the string or at a non-digit |
| `Endpoints.FindVideoId` | index.js:53-56 | a result is a non-empty string of digits, and some position from the scan's start matches `/video/` followed by a digit |
| `Endpoints.ExtractTikTokId` | index.js:53-56 | a found id is a non-empty string of digits |
| `Endpoints.FindVideoIdSpec` | index.js:53-56 | scanning from a position finds nothing exactly when no later position matches `/video/` followed by a digit. Otherwise the result is the digit run at the leftmost match |
| `Endpoints.ExtractTikTokIdSpec` | index.js:53-56 | `extractTikTokId` is null exactly when the pattern matches nowhere. Otherwise it is the non-empty maximal digit run after the leftmost `/video/` that a digit follows |
| `Endpoints.LaterMarkerSuppliesId` | index.js:53-56 | a `/video/` with no digit after it is skipped, so `/video/x/video/12?` yields `12` |
| `Endpoints.TikTokRowUrl` | index.js:17 | the TikTok Official row asks for `aweme_id=<id>`, or `aweme_id=null` when no id is found |
| `Endpoints.ShortLinkHasNoId` | index.js:17 | a short link without `/video/` has no id, so the TikTok Official row asks for `aweme_id=null` |
| `Endpoints.Table` | index.js:10-50 | the table has five rows named TiklyDown, TikTok Official, Cobalt, Noobs API and TikWM, in that order |
| `Endpoints.TableShape` | index.js:10-50 | the row names are distinct, so each provider is tried at most once. Exactly rows 3 and 5 are POST, and their JSON bodies carry the caller's URL. GET rows have no body. Only TikTok Official replaces the default User-Agent |
| `Fallback.Accepts` | index.js:84-90 | only an object can pass the acceptance test |
| `Fallback.AcceptsIffTruthyField` | index.js:84-90 | a response is accepted if and only if its data is an object with a truthy field named `video_url`, `download_url`, `data`, `aweme_list` or `url`. So strings, arrays, numbers and null are never accepted |
| `Fallback.EmptyContainerAccepted` | index.js:84-90 | an empty array or object under one of the five names is accepted. An empty string or a zero is not |
| `Fallback.Run` | index.js:58-120 | a Found result is an accepted answer at its index. An Unexpected result is the last provider's unaccepted answer. An Exhausted result carries the last provider's failure |
| `Fallback.FirstAcceptedIsFound` | index.js:84-96 | if `k` is the first accepted position, the loop returns that answer at `k`, whatever later providers would give |
| `Fallback.FoundIsFirstAccepted` | index.js:58-98 | when the loop returns an accepted answer, no earlier answer was accepted |
| `Fallback.AcceptedMeansFound` | index.js:58-96 | any accepted answer makes the loop end with an accepted answer, at that position or earlier |
| `Fallback.NoneAcceptedMeansLastResort` | index.js:97-119 | when nothing is accepted, only the last outcome decides the result: its answer comes back unaccepted, or its error ends the run |
| `Fallback.AlwaysTerminal` | index.js:99-119 | with at least one provider left, the loop always returns or throws and never runs off its end |
| `Fallback.OnlyLastFailureReported` | index.js:110-119 | errors from providers before the last are discarded. Two runs with nothing accepted and the same last outcome end identically |
| `Fallback.AttemptsOfRun` | index.js:58-120 | the number of providers called is one past the accepted index, or all of them. Between one and five are called |
| `Fallback.StatusText` | index.js:111-117 | the status prints in decimal when there is a non-zero one, and as `Network Error` otherwise |
| `Fallback.ErrorTextChoice` | index.js:112 | a truthy `message` in the error body wins and is printed as `${…}` prints it, whatever its type (a non-empty string prints as itself). A missing or falsy one falls back to axios's message, and a transport error always reports axios's message |
| `Fallback.AllFailedMessageText` | index.js:117 | the all-failed error reads `All 5 API endpoints failed. Most recent error: `, then the status text, ` - `, the error text and `. The video URL might be private, expired, or the APIs are temporarily down.` |
| `Fallback.FailureDetailExamples` | index.js:111-117 | a 404 with `{message: "Video not found"}` reports `404` and that message. A timeout reports `Network Error` and axios's text |
| `Download.TryInOrder` | index.js:58-120 | the indexed loop ends as `Run` says, and the requests it sent are exactly the table's requests up to the one that ended it |
| `Download.DownloadSpec` | index.js:4-121 | a falsy URL throws `URL is required`. A result comes only from a string URL and names one of the five providers. It carries a warning exactly when its data fails the acceptance test, and then it is TikWM's answer with the warning text |
| `Download.Download` | index.js:4-121 | `download` settles as `DownloadSpec` says and sends exactly the requests `TriedSpec` lists |
| `Download.BadUrlRejected` | index.js:5-17 | a falsy URL throws `URL is required` before any provider is called. A truthy URL that is not a string throws the TypeError of `url.match` while the table is built |
| `Download.FirstAcceptedWins` | index.js:84-96 | the first accepted answer resolves to `{data, contentType, apiUsed, status}` with no warning. Only the providers up to it are called |
| `Download.LastProviderDecides` | index.js:97-119 | with nothing accepted, an answer from TikWM resolves with the warning. An error from TikWM throws `All 5 API endpoints failed. Most recent error: …` built from that error. All five providers are called |
| `Download.StringUrlSettles` | index.js:58-121 | a non-empty string URL either resolves, or TikWM failed and the call throws the all-failed error built from TikWM's failure. It never settles to `undefined` |
| `Download.WarningOnlyFromLastProvider` | index.js:97-107 | a warning comes only from TikWM and only when nothing was accepted. A result without a warning holds accepted data |
| `ApiHandler.HandlerSpec` | api/download.js:4-132 | every reply has status 200, 400, 405 or 500 and a JSON object body. The status is 200 exactly when the body says `success: true`. A 500 says `success: false` and happens only when TikWM failed |
| `ApiHandler.ReplyBodiesRelated` | api/download.js:97-128 | the warning body is the success body plus a `warning` field. The failure body is the plain error body plus `success: false`. A success body carries `success: true`, the provider's name and its data |
| `ApiHandler.Handle` | api/download.js:4-132 | the handler appends exactly the replies `HandlerSpec` gives to the response and sends exactly the requests `HandlerTried` lists. The response's status is the reply's status, or stays unchanged when nothing is written |
| `ApiHandler.GuardsRejectEarly` | api/download.js:5-13 | a non-POST request gets 405 `{error: 'Method not allowed'}`. A POST without a truthy `url` gets 400 `{error: 'URL is required'}`. Neither calls a provider |
| `ApiHandler.ExactlyOneReply` | api/download.js:5-131 | every request gets exactly one reply unless a TypeError escapes. That happens only for a null or missing body, or a truthy `url` that is not a string |
| `ApiHandler.HandlerAgreesWithDownload` | api/download.js:64-131 | the handler's reply is `download`'s result rendered as HTTP. A result becomes 200 `success: true`, with the warning when there is one. The URL error becomes 400, and the all-failed error becomes 500 `success: false` with the same text. Both call the same providers in the same order |

## Left out

- The HTTP server in `index.js`: static `public/index.html`, request-body accumulation and `JSON.parse`, and the default status route. This is I/O plumbing.
- Port binding, the `EADDRINUSE` retry and `process.exit`. These are process lifecycle.
- The `axios.get`/`axios.post` calls. They are replaced by the outcome oracle `net`, which holds one outcome per table row (`|net| == 5`).
- The 15000 ms timeout. A timeout is just one kind of transport error in the oracle, and timing is not modelled.
- All `console.log` output.
- `encodeURIComponent`. It is the opaque parameter `encode`, so the TiklyDown and Noobs API URLs are stated in terms of it.
- The reply the serverless runtime sends after a TypeError escapes from `handler` (`Crashed`). The model records only that the handler itself wrote nothing.
- `dlchk.js`. It is a manual script that calls the live services and only prints fields.
- `JsValues.ToJsString`: numbers are integers, so fractional and exponent forms are not rendered.
- `JsValues.ToJsString`: an error-body `message` that is an object whose own `toString` field is not a function makes `${…}` throw. That already happens in the `console.log` of the `catch` (index.js:114, api/download.js:122), for every provider, not only the last. The model prints such a value as `[object Object]` and lets the loop go on.
- `ApiHandler.ExactlyOneReply`, `Download.StringUrlSettles`: strings are sequences of Unicode scalar values and `encode` is total. In the source, a `url` holding a lone UTF-16 surrogate (which `JSON.parse` can produce from `"\uD800"`) makes `encodeURIComponent` throw a `URIError` while the table is built (index.js:12, api/download.js:24). `download` then rejects with that error, and `handler` lets it escape without a reply. That path is not modelled.
