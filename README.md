# goreq request builder, modelled in Dafny

This project models the core of goreq (`goreq.go`), a fluent HTTP request builder for Go. It covers these parts:

- **The options record.** `ReqOptions`, and `mergeOptions`, which overlays one record onto another in place.
- **Builder construction.** `Req` and `GoReq.Req`.
- **The fluent setters.**
- **The request assembly of `prepareReq`.** The body strategies' `build`, the Content-Type write, the URL join of `buidUrl`, header suppression through `inToBeRemovedHeader`, the upper-cased method, and the redirect hook.
- **The operations that run an exchange.** `Do`, `PipeStream` and `PipeReq`.
- **The reverse-proxy relays.** `PipeFromReq` and `PipeToResponse`, each with its header filter and its 4-byte copy loop.

Modules, one per component:

- `Wrappers`: `Option` and `Result`.
- `Http`:
  - header and query maps;
  - the error causes, with Go panics as `Panic(cause)`;
  - `Header.Get`, the header filter `Without` and `strings.ToUpper`.
- `Streams`:
  - a reader, given as the results of its `Read` calls into a 4-byte buffer;
  - an `io.Writer` sink (`Buffer`);
  - the copy loop `CopyChunks`, with its specification functions and lemmas.
- `Bodies`: the four `httpReqBody` variants and `build`.
- `Urls`: `buidUrl` as written, and the join it evidently meant.
- `Overlay`:
  - `ReqOptions` and the header map as classes, because Go shares them by reference;
  - `mergeOptions`.
- `Server`: the inbound request and an `http.ResponseWriter`, with the header relay.
- `Builder`:
  - the builder (`GoReq`) with its client state;
  - the pure assembly function `Assemble`, with the lemmas about it;
  - every builder operation.
- `Scenarios`: whole-builder behaviours that the repository's tests and examples exercise, and the consequences of the shared header maps.

State is modelled as in the source:

- **Updated in place, so modelled as classes:**
  - the options record and its `Headers` map;
  - the builder (its `Options` pointer, and its transport and client settings in one `Client` value);
  - the writer sinks and the response writer.
- **Parameters instead:**
  - the library and network calls are fields of a `Library` value: `url.Values.Encode`, `json.Marshal`, the acceptance of the proxy URL by `url.Parse`, the acceptance of a method and URL by `http.NewRequest`, `client.Do`, and `gzip.NewReader`;
  - the process-wide `defaultOptions` is passed to `Req`.

The model follows the code as written:

- `Get` stores the method `"Get"`, which goes out as `"GET"`. An unset (empty) method also goes out as `"GET"`, the default `http.NewRequest` applies.
- `buidUrl` looks for `?` in the encoded query, not in the URL.
- `PipeReq` reads the piped Content-Type from a response header literally named `reqPipeContent`.
- `PipeStream` copies the raw body, not the decoded one. On the gzip path that body is already closed, so the copy writes nothing and fails.
- `Do`, `PipeStream` and `PipeReq` check only the decoder's error. An error returned by `prepareReq` therefore ends in a panic on the nil response. A panic raised inside `prepareReq` (a body that does not marshal, or a nil `Headers` map) goes on with its own cause.
- A body over a nil `Headers` map panics when its Content-Type is written.
- The copy loops ignore write errors.
- Header maps are shared:
  - a child builder's headers are written into its parent's map;
  - every builder made with `Req(nil)` shares the defaults' map, which keeps the Content-Type of any body prepared through it.

Six behaviours of the code a caller may not expect:

- **Nullable fields.** `mergeOptions` overwrites `FollowRedirect` and `Proxy` whenever the source sets them, even when the target already has them.
- **Derived builders.** A derived builder keeps its parent's `Method`, `Url` and `Jar` when they are set, whatever the override says.
- **Fields that are not merged.** `QueryString`, the body, `Timeout` and `HeadersToBeRemove` of the override are never merged.
- **Shared maps.** A derived builder shares its parent's header map, so changes through either are seen by both.
- **The gzip reader.** `getStringReader` closes the raw body as soon as it returns, not when the gzip reader finishes.
- **Client settings.** Proxy, jar and timeout settings stay on the builder's client across exchanges; only the redirect hook is chosen again each time.

## Model

| member | source | states |
|---|---|---|
| `Http.Without` | goreq.go:270-275 | a name is kept exactly when it is in the map and not in the dropped set, with its values unchanged |
| `Http.ToUpper` | goreq.go:378 | same length; no lower-case ASCII letter is left; other characters are unchanged; each lower-case letter becomes its upper-case form |
| `Http.ToUpperIdempotent` | goreq.go:378 | upper-casing twice is upper-casing once |
| `Streams.ReadAt` | goreq.go:247 | read number i has no error and is not at EOF exactly while i is below the number of clean reads |
| `Streams.Writes` | goreq.go:246-259 | every slice the loop passes to Write holds at most 4 bytes |
| `Streams.WritesDeliverContent` | goreq.go:292-309 | the writes put exactly the reader's content into the sink, in read order, with the final EOF slice included |
| `Streams.CopyAgreesWithReadAll` | goreq.go:440 | the copy succeeds exactly when ReadAll does; it then delivers ReadAll's bytes, and otherwise it returns ReadAll's error |
| `Streams.FailedCopyDropsPartial` | goreq.go:297-304 | on a non-EOF error the sink holds the bytes read before it, and the slice returned with the error is never written |
| `Streams.ChunkingIsInvisible` | goreq.go:292-307 | two clean readers with the same content deliver the same bytes, however they split them |
| `Streams.Buffer.Write` | goreq.go:306 | each call is recorded; a working writer appends the slice and reports its length; a broken one keeps nothing and returns an error |
| `Streams.CopyChunks` | goreq.go:292-309 | the sink receives exactly the loop's writes and the reader's content, or nothing new when it is broken; the result is nil at EOF and the read error otherwise |
| `Bodies.Build` | goreq.go:59-102 | build fails only when marshalling a JSON object fails, and then as a panic |
| `Bodies.BuildDeclaresContentType` | goreq.go:67-101 | the form type for a form, the JSON type for JSON strings and objects, the stored type for a pipe; the reader yields the encoded form, the bytes, the marshalled bytes or the piped stream |
| `Urls.BuildUrl` | goreq.go:104-118 | the URL unchanged for an empty query; otherwise the URL, one separator and the query; the separator is '&' exactly when the query holds '?' |
| `Urls.BuildUrlIgnoresUrl` | goreq.go:109-115 | what is appended is the same for every URL: the URL's own '?' is never consulted |
| `Urls.BuildUrlDoublesQuery` | goreq.go:110-114 | a URL that already has a query gets a second '?', so the result holds at least two |
| `Urls.BuildUrlExample` | goreq.go:110-114 | "http://host/path?x=1" with "a=1" becomes "http://host/path?x=1?a=1" |
| `Urls.OccurrencesAppend` | goreq.go:111-113 | the number of '?' in a concatenation is the sum over its parts |
| `Urls.BuildUrlIntended` | goreq.go:104-118 | the intended join keeps the URL as a prefix and the query as a suffix, with one separator |
| `Urls.IntendedJoinKeepsOneQuery` | goreq.go:104-118 | the intended join never leaves more than one '?' when the URL had at most one |
| `Urls.IntendedJoinExamples` | goreq.go:104-118 | the intended join gives "http://host/path?a=1" and "http://host/path?x=1&a=1" |
| `Overlay.ReqOptions.constructor` | goreq.go:30-57 | a literal `&ReqOptions{}`: every field at its zero value, with nil headers and no nullable settings |
| `Overlay.ReqOptions.CopyOf` | goreq.go:166 | the shallow copy holds the same values and the very same header map |
| `Overlay.OverlayLaws` | goreq.go:131-151 | a set Method or Url is never replaced; a set nullable in the source always replaces; merging the same source twice adds nothing |
| `Overlay.MergeOptions` | goreq.go:121-163 | nil copyTo gives a new copy of copyFrom; nil copyFrom leaves copyTo untouched; otherwise the scalars are filled, the nullables overwritten, the headers merged with copyFrom winning or aliased, and nothing else changes |
| `Overlay.WriteAll` | goreq.go:157-159 | the target map ends as its old entries overwritten by every source entry |
| `Server.AddValue` | goreq.go:240 | the value is appended to that name's values, and the other names are untouched |
| `Server.AppendValues` | goreq.go:237-243 | the relayed header: old values first, then the relayed ones; a name with no values is not added |
| `Server.ResponseWriter.Add` | goreq.go:240 | `w.Header().Add` appends one value to the writer's header |
| `Server.ResponseWriter.WriteHeader` | goreq.go:245 | only the first call sets the status, and it sends the header as it stands |
| `Server.AddValues` | goreq.go:239-241 | the values of one name are added in order, one Add call each |
| `Server.AddAllAppends` | goreq.go:237-243 | adding one more name's values, one by one, extends the relayed header by exactly that name |
| `Server.RelayHeaders` | goreq.go:226-243 | every upstream header except Connection is appended to the writer's header, each value in order |
| `Builder.RedirectFor` | goreq.go:395-405 | the ErrUseLastResponse hook is installed exactly when FollowRedirect is explicitly true |
| `Builder.RedirectForIsInverted` | goreq.go:40-41 | explicit true does not follow redirects; explicit false and unset do |
| `Builder.RedirectForIntended` | goreq.go:40-41 | the documented policy: redirects are followed unless FollowRedirect is explicitly false |
| `Builder.Configure` | goreq.go:349-365 | fails exactly when a set proxy does not parse, with that error; the hook is untouched; a parsed proxy, a non-nil jar and a positive timeout are installed on the client; an unset proxy, nil jar or non-positive timeout keeps the client's own |
| `Builder.WithContentType` | goreq.go:369-376 | with a body, Content-Type is overwritten with the body's type and every other name kept; a nil map panics; without a body nothing changes |
| `Builder.Outgoing` | goreq.go:383-389 | exactly the headers whose name matches no removed name are sent, and none are sent from a nil map |
| `Builder.ContentTypeOverwritten` | goreq.go:375 | a body that builds leaves exactly its own Content-Type in the header map, whatever was there, and keeps every other name |
| `Builder.AssembleFails` | goreq.go:367-381 | a request fails exactly on a marshalling failure, a nil map under a body, or a rejected method or URL, reported in that order: a marshalling failure panics, a nil map under a body that builds panics, and otherwise a rejected method or URL gives the request error |
| `Builder.SentMethod` | goreq.go:378 | the method sent is never empty: an empty one becomes GET and any other is kept |
| `Builder.Assemble` | goreq.go:367-389 | the only failures are a body that does not marshal, a write into a nil header map, and a request NewRequest refuses; a created request has a non-empty method with no lower-case ASCII letter and carries no removed header name |
| `Builder.AssembleRequest` | goreq.go:367-389 | the request has the upper-cased method (GET when the method is empty), the joined URL and the body's reader; its headers are those not removed, with the caller's values, and a removed name is absent rather than empty; Content-Type is the body's own type unless it is removed, and the caller's own value when there is no body |
| `Builder.GetIsSentAsGET` | goreq.go:195-199 | the method "Get" stored by Get goes out as "GET", and so does an unset method |
| `Builder.GetStringReader` | goreq.go:416-429 | without "Content-Encoding: gzip" the raw body is returned as is; it fails only on the gzip path, with the gzip reader's error |
| `Builder.DecodeSelection` | goreq.go:416-429 | only "Content-Encoding: gzip" wraps the body; on that path the raw body is closed, so a copy from it writes nothing and fails |
| `Builder.DropInbound` | goreq.go:265-275 | the inbound headers minus exactly Connection, Referer and Origin |
| `Builder.NewDefaultOptions` | goreq.go:18-22 | the defaults: no redirect setting, an empty header map and an empty query |
| `Builder.Req` | goreq.go:170-187 | a fresh client; the caller's own record, or a shallow copy of the defaults sharing their header map |
| `Builder.GoReq.constructor` | goreq.go:171-177 | a builder over the given record with a fresh client |
| `Builder.GoReq.Prepared` | goreq.go:348-414 | a set proxy that does not parse fails with that error; once the proxy is accepted, a body that builds over a nil header map panics on the write |
| `Builder.GoReq.PrepareWritesContentType` | goreq.go:369-376 | once the client is configured, preparing a body that builds leaves the body's Content-Type in the options' own header map |
| `Builder.GoReq.PrepareReq` | goreq.go:348-414 | returns the exchange's response for the assembled request, sent with the configured client and the redirect hook, or the first error; the client and the header map end as specified |
| `Builder.GoReq.Req` | goreq.go:165-168 | the child gets a new record merged from the parent's and the override's; the parent's record is unchanged, but the override's headers are written into the parent's map |
| `Builder.GoReq.Post` | goreq.go:189-193 | sets the URL and "POST" and returns the same builder |
| `Builder.GoReq.Get` | goreq.go:195-199 | sets the URL and "Get" and returns the same builder |
| `Builder.GoReq.FormData` | goreq.go:201-206 | installs a form body |
| `Builder.GoReq.JsonString` | goreq.go:208-214 | installs a JSON-bytes body |
| `Builder.GoReq.JsonObject` | goreq.go:216-222 | installs a JSON-object body |
| `Builder.Unwound` | goreq.go:431-433 | what a failed prepareReq becomes: a panic inside it keeps its cause, and a returned error becomes the nil-response panic |
| `Builder.DoResult` | goreq.go:431-447 | a failed prepareReq gives that panic; a success carries prepareReq's own response; without gzip it succeeds exactly when the raw body ends at EOF, with the body's whole content, and otherwise returns the read error; a gzip reader that fails gives its error, and one that opens is read whole in the same way: its content at EOF, its read error otherwise |
| `Builder.GoReq.Do` | goreq.go:431-447 | the decoded body read whole, with the response; the decoder's or the reader's error; after a failed prepareReq, its own panic or else a panic on the nil response |
| `Builder.GoReq.PipeStream` | goreq.go:283-310 | after a failed prepareReq, its own panic or else a panic on the nil response, with the writer untouched; otherwise the decoder's error, or the raw body copied into the writer in slices of at most 4 bytes |
| `Builder.GoReq.PipeReq` | goreq.go:312-322 | the decoded response becomes the next builder's pipe body, typed by the "reqPipeContent" response header; otherwise the decoder's error, or after a failed prepareReq its own panic or else a panic on the nil response |
| `Builder.GoReq.PipeToResponse` | goreq.go:223-262 | on success, the headers are relayed except Connection, then the status is written, then the raw body is copied; prepareReq's error is returned with the writer untouched |
| `Builder.GoReq.PipeFromReq` | goreq.go:264-281 | the filtered inbound headers are merged into the builder's map, with inbound values winning, or become its map; the inbound body is installed with its Content-Type; nothing else changes |
| `Builder.GoReq.InToBeRemovedHeader` | goreq.go:334-346 | true exactly when the name is in HeadersToBeRemove, compared case-sensitively |
| `Builder.GoReq.CopyHeaders` | goreq.go:383-389 | the header copy equals the Outgoing specification |
| `Scenarios.GlobalOptions` | testing/goreq_test.go:161-170 | both children inherit the proxy; the second child's false wins; the parent keeps true |
| `Scenarios.ChildHeadersReachParent` | goreq.go:165-168 | after deriving a child with headers, the parent's map holds them too |
| `Scenarios.ContentTypeLeaksIntoDefaults` | goreq.go:179-181 | after a JSON body is prepared through Req(nil), the defaults' map, which every later Req(nil) shares, holds "Content-Type: application/json" |
| `Scenarios.PipeStreamDelivers` | testing/goreq_test.go:67-82 | the writer receives exactly the body, and no error is returned |
| `Scenarios.DoReturnsBody` | testing/goreq_test.go:104-118 | Do returns the body and status 200 |
| `Scenarios.RemoveHeaderDropsIt` | testing/goreq_test.go:144-160 | with header2 removed, the request carries header1 only |
| `Scenarios.ReverseProxyForwards` | example/proxyServer/reverseProxy.go:9-18 | Origin, Referer and Connection are not forwarded; other inbound headers are; the piped body goes out with the inbound Content-Type |

## Left out

- **The HTTP exchange.** The transport, the client, connection pooling and the enforcement of `Timeout` are not modelled (goreq.go:16-17, 172-177, 407). The exchange is the `exchange` parameter. It receives the assembled request and the client settings (proxy, jar, timeout, redirect hook), and its answer is taken as given.
- **Library internals.** `url.Parse`, `http.NewRequest`, `url.Values.Encode` with its escaping and key order, `json.Marshal` and gzip decoding are parameters, known only by their results.
- **Reading a gzip body.** The gzip reader reads from a body that `getStringReader` has already closed. What it can still deliver depends on gzip's internal buffering, which lies inside the `gunzip` parameter.
- **`To`.** `To` (goreq.go:324-332) is `Do` followed by `json.Unmarshal` into a caller's value. Unmarshalling is library serialisation, so `To` is not modelled.
- **Close calls.** `Close` on the response body or the decoded reader, and on a piped request body, after the exchange (goreq.go:233, 290, 372-374, 438) is not modelled. The one effect the model keeps is that the raw body is closed on the gzip path.
- **Header names.** They are compared exactly, as the filters and `inToBeRemovedHeader` compare them. The canonicalisation `Header.Add` and `Header.Get` apply to names is not modelled.
- `Http.ToUpper`: only ASCII letters are upper-cased. `strings.ToUpper` also maps other Unicode letters.
- `Server.ResponseWriter.WriteHeader`: it does not model net/http's validation of the status code, or the implicit status 200 of a Write before WriteHeader.
- `Overlay.MergeOptions`: it requires one of the two records to be non-nil. Two nil records make the Go code dereference nil, and no caller in goreq passes two.
- **`Timeout`.** It is an integer; its unit (`time.Duration` nanoseconds) does not matter to the model.
- **Values shared by reference.** The shallow copies at goreq.go:166 and 180 share `QueryString`, `HeadersToBeRemove`, `bodyContent` and the `FollowRedirect`/`Proxy` pointers, but the model holds them as values. goreq never writes them in place, so no contract depends on this. One consequence is not captured: a piped body that one exchange has read (and goreq.go:372-374 has closed) still looks unread to a second exchange of the same builder, or of a child that shares its `bodyContent`.
- **`Buffer` calls.** The `calls` record in `Buffer` is proof bookkeeping. It has no counterpart in Go.

## Findings

| source | as written | input that shows it | evidently intended | confidence | as-written member | corrected member |
|---|---|---|---|---|---|---|
| goreq.go:110 | the separator is '&' only when the encoded query string contains '?', which `Encode` escapes, so it is always '?' | Url "http://host/path?x=1" with QueryString a=1 gives "http://host/path?x=1?a=1" | '&' when the URL already has a query | high, not executed | `Urls.BuildUrlDoublesQuery` | `Urls.IntendedJoinKeepsOneQuery` |
| goreq.go:398-401 | FollowRedirect true installs the ErrUseLastResponse hook, which stops at the first redirect; false and nil follow | FollowRedirect = true on a URL that answers 302 | follow redirects unless FollowRedirect is false ("follow HTTP 3xx responses as redirects (default: true)", goreq.go:40) | medium, not executed | `Builder.RedirectForIsInverted` | `Builder.RedirectForIntended` |

The corrected definitions are `Urls.BuildUrlIntended` and `Builder.RedirectForIntended`, with their properties proved. The builder itself (`Assemble`, `Prepared`, `PrepareReq`) is composed from the as-written `Urls.BuildUrl` and `Builder.RedirectFor`, because it models what goreq does. The second finding is rated medium because the two places in the source disagree. The field's comment at goreq.go:40 promises that redirects are followed by default and when the flag is true. The code at goreq.go:398-401 stops at the first redirect when the flag is true.
