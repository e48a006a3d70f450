# rita-go client, modelled in Dafny

rita-go is a Go client for the Rita event-channel service. A client is built from
a server URL and an API key. It can fetch a channel's cursor (`GetCursor`),
post an event (`SendEvent`), fetch a channel's stored events
(`GetEvents`, `GetEventsSince`) and subscribe to a channel as a server-sent
event stream (`SubEvent`, `SubEventSince`).

This project models the deterministic logic of `rita.go` and `types.go`:

- the error enumeration and its messages (`types.dfy`);
- the `strings` helpers the client relies on (`text.dfy`);
- `createUrl`, with the slash-collapsing rewrite and the query loop (`urls.dfy`);
- client construction, `ensureCan`, the status-code mapping, the query maps and
  the six operations (`client.dfy`);
- the subscription reader, a class whose `Run` loop records its effects in a
  trace: deliveries, closing the body, closing the channel (`stream.dfy`).

Each operation takes the outside world as inputs:

- the parsed server URL, or None when `url.Parse` fails;
- the outcome of `client.Do` (an error or a status code);
- the outcome of reading and decoding the reply body;
- for the stream, the sequence of `ReadBytes` results and a finite decoder map.

Each operation returns the request it would issue, together with its result.

A since-operation with a blank id still sends the `eventId` key, with an empty
value: the query map is built with `"eventId": ""` and only a non-blank id
overwrites it (rita.go:262-269, rita.go:379-386). `SubEvent` and `GetEvents`
always go this way.

## Model

| member | source | states |
|---|---|---|
| Types.CodesAreConsecutive | types.go:37-46 | the eight codes are the consecutive values 0..7 in declaration order; a value is a code exactly when it is in that list |
| Types.String | types.go:48-69 | the message is "unknown error" exactly when the value is not one of the eight codes |
| Types.ForbiddenMessages | types.go:62-65 | Forbidden gives "Forbidden" and UnknownError the lower-case "forbidden"; the two differ |
| Types.StringInjective | types.go:49-68 | two values share a message exactly when they are equal or both outside the eight codes |
| Types.Error | types.go:71-73 | `Error()` is `String()` for every value |
| Text.TrimSpace | rita.go:314 | the result starts and ends with a non-white-space character, or is empty |
| Text.TrimSpaceShape | rita.go:314 | the result is a slice of the input, and only white space is outside that slice |
| Text.TrimSpaceEmpty | rita.go:448 | a string trims to empty exactly when it is all white space |
| Text.TrimSpaceOf | rita.go:314 | white space around an already-trimmed string, whatever it is, trims back to that string |
| Text.TrimSpaceIdempotent | rita.go:318 | trimming twice is trimming once |
| Text.ToLowerFacts | rita.go:438 | the result has no upper-case ASCII letter, has white space exactly where the input does, and lowering it again changes nothing |
| Text.ToLower | rita.go:438 | the result has the input's length, and each character is the input's one lowered (ASCII letters only) |
| Text.HasPrefixOf | rita.go:316 | `s` starts with `p` exactly when `s` is `p` followed by the rest of `s`; `p` + anything starts with `p` |
| Text.TrimPrefix | rita.go:317 | with the prefix present, prefix + result is the input; otherwise the input comes back unchanged |
| Text.ReplaceFirst | rita.go:472 | a string without the placeholder comes back unchanged |
| Text.ReplaceFirstAt | rita.go:472 | only the first placeholder is replaced: the text before it is kept, and so is all text after it, later placeholders included |
| Urls.CollapseSlashes | rita.go:469-470 | the result is no longer than the input and keeps its first character and whether the second is a slash |
| Urls.CollapseComplete | rita.go:469-470 | the result holds no match of `([^:]\/)\/+` |
| Urls.CollapseIdentity | rita.go:469-470 | a string with no match is left unchanged |
| Urls.CollapseChanges | rita.go:469-470 | the rewrite leaves a string unchanged exactly when it has no match |
| Urls.CollapseIdempotent | rita.go:469-470 | rewriting twice is rewriting once |
| Urls.CollapseKeepsNonSlash | rita.go:469-470 | only slashes are removed: the other characters survive, in order |
| Urls.SetParams | rita.go:461-467 | the keys are the base keys plus the parameter keys; each parameter key holds exactly its one value; any other key keeps its values |
| Urls.SetParamsStep | rita.go:463-465 | setting one more key is the map update of that key |
| Urls.SetAll | rita.go:462-465 | the `q.Set` loop, in any key order, ends with SetParams of the base query |
| Urls.PathFor | rita.go:469-472 | a template with no slash run is substituted as written; a collapsed template without `$` is the path itself |
| Urls.CreateUrl | rita.go:455-475 | a parse failure is returned as it is, and as the only failure; otherwise scheme, host and fragment are kept, the path is overwritten with the collapsed template after the first-`$` substitution, and the query is set over the base query only when a map is given |
| Client.NewRitaClient | rita.go:41-54 | the three fixed templates; the stored URL and key are TrimSpace of the configured values, so they are trimmed and empty exactly when the configured value is all white space |
| Client.Normalize | rita.go:437-438 | the channel comes out trimmed and lower-case, and empty exactly when it was all white space |
| Client.NormalizeIdempotent | rita.go:437-438 | normalising twice is normalising once |
| Client.NormalizeIgnoresSpaceAndCase | rita.go:437-438 | surrounding white space and ASCII letter case do not change the channel addressed |
| Client.EnsureCan | rita.go:436-453 | ServerNotConfig exactly when the server is empty; else ApikeyNotConfig exactly when the key is empty; else ChannelNotValid exactly when the channel is all white space; no other error; success returns the non-empty normalised channel |
| Client.StatusError | rita.go:105-126 | 200 is success, 401 NotAuthorized, 403 or 404 Forbidden, any other code UnknownError, in both directions |
| Client.StatusErrorCodes | rita.go:120-125 | a non-200 status always gives one of the three reply codes, never ServerUrlNotValid |
| Client.EventIdParam | rita.go:267-269 | the value is empty exactly when the id is blank; otherwise it is the id as given |
| Client.EventIdParamKeepsId | rita.go:267-269 | an id is sent with its surrounding white space, and the `$` cursor is sent as it is |
| Client.SinceParams | rita.go:262-269 | exactly the keys `eventId` and `sub`; `eventId` holds EventIdParam and `sub` holds "true" or "false" |
| Client.QueryParams | rita.go:379-386 | building the map with an empty `eventId` and then overwriting it for a non-blank id gives SinceParams |
| Client.TemplateFacts | rita.go:42-44 | the fixed templates have no slash run, and the prefix `/v1/event/` holds no `$` |
| Client.SendTemplatePath | rita.go:469-472 | for `/v1/event/$` the path is `/v1/event/` + channel, whatever the channel holds, slashes included |
| Client.CursorTemplatePath | rita.go:469-472 | for `/v1/event/$/last` the path is `/v1/event/` + channel + `/last` |
| Client.EventIdReply | rita.go:105-126 | a transport error, a status error, a read error or a decode error each gives its own failure; success exactly on 200 with a decoded body, giving its event id |
| Client.GetCursor | rita.go:80-127 | ensureCan fails first, then URL parsing, with no request issued; otherwise a body-less GET to the server URL with the path `/v1/event/<channel>/last` and everything else kept, answered by EventIdReply; never ServerUrlNotValid |
| Client.SendEvent | rita.go:152-205 | ensureCan, then URL parsing, then marshalling (JsonNotValid), each stopping before any request; otherwise a POST of the marshalled body to the server URL with the path `/v1/event/<channel>` and everything else kept, answered by EventIdReply; never ServerUrlNotValid |
| Client.SinceQuery | rita.go:461-466 | the query sent holds the base keys, plus `eventId` and `sub` with one value each; other base keys are kept |
| Client.SubEventSince | rita.go:256-345 | ensureCan, then URL parsing, with no request issued; otherwise a GET to the server URL with the path `/v1/event/<channel>` and the query SinceQuery with `sub=true`; success exactly on a 200 reply; a transport error or status error gives its own failure; never ServerUrlNotValid |
| Client.SubEvent | rita.go:228-230 | every promise of SubEventSince with the id `""`: the same failures in the same order, the same request with `eventId` empty and `sub=true`, the same reply handling |
| Client.GetEventsSince | rita.go:373-434 | failures before a response give an empty list and their own error; a GET to the server URL with the path `/v1/event/<channel>` and SinceQuery with `sub=false`; a status error gives nil and its code; a transport, read or decode error gives an empty list and its own error; success exactly on 200 with a decoded body, returning its events |
| Client.GetEvents | rita.go:357-359 | every promise of GetEventsSince with the id `""`: the same failures, the empty list or nil, and the same request with `eventId` empty and `sub=false` |
| Stream.Payload | rita.go:314-322 | a payload comes only from a line whose trimmed text starts with `data:`; a payload is trimmed, non-empty and not `ping` |
| Stream.PayloadOf | rita.go:314-322 | white space, `data:`, white space, a trimmed payload and white space give that payload, unless it is empty or `ping` |
| Stream.PayloadOfBare | rita.go:316-322 | `data:` with only white space around it gives nothing |
| Stream.PayloadOfOther | rita.go:316 | a line whose trimmed text does not start with `data:` gives nothing |
| Stream.PayloadShape | rita.go:314-322 | every payload comes from a line of exactly the PayloadOf shape |
| Stream.LineEvent | rita.go:316-330 | a line yields an event exactly when it has a payload that decodes, and the event is the payload's decoding |
| Stream.OutcomeOf | rita.go:306-312 | a read ends the stream exactly when it is a read error |
| Stream.OutcomesAppend | rita.go:305-334 | each read is handled on its own: the outcomes of two stretches of input are those of each stretch |
| Stream.OutcomesEnds | rita.go:306-312 | the outcomes stop the stream exactly when a read failed |
| Stream.EffectsShape | rita.go:305-334 | the effects are one delivery per event, then both closes exactly when a read failed |
| Stream.Trace | rita.go:305-334 | the loop's effects on the input: at most one per read, plus one for the two closes |
| Stream.Delivered | rita.go:305-334 | the loop's deliveries on the input: at most one event per read |
| Stream.TraceShape | rita.go:304-335 | the trace is the deliveries of the delivered events in arrival order, then the body close and the channel close exactly when a read failed |
| Stream.ClosedOnceAtEnd | rita.go:306-312 | after a read error the trace ends with the body close and then the one channel close, and everything before them is a delivery |
| Stream.OpenWhileNoError | rita.go:305-334 | while no read has failed, nothing is closed |
| Stream.TraceAppend | rita.go:305-334 | after lines read without error, the trace of the later input follows on |
| Stream.DeliveredAppend | rita.go:332 | events are delivered in arrival order |
| Stream.ErrorDiscardsRest | rita.go:306-312 | the bytes returned with the error, and every later read, have no effect |
| Stream.TraceOne | rita.go:314-332 | one line alone has that line's effects and events, and does not end the stream |
| Stream.SkippedLine | rita.go:320-330 | a line that yields nothing, a failed decode included, is skipped and the stream goes on |
| Stream.DataLineExample | rita.go:316-332 | `data: <json>` delivers the event the payload decodes to |
| Stream.PingLineExample | rita.go:320-322 | `data: ping` delivers nothing and does not end the stream |
| Stream.CommentLineExample | rita.go:316 | `: comment` delivers nothing |
| Stream.BadJsonLineExample | rita.go:325-330 | a payload that does not decode delivers nothing and does not end the stream |
| Stream.EndsAppend | rita.go:305-312 | a prefix without a read error does not change whether the stream fails |
| Stream.TraceSnoc | rita.go:305-334 | one more line, read without error, adds that line's effects |
| Stream.TraceError | rita.go:306-312 | a read error after error-free lines ends the trace with the two closes, whatever follows |
| Stream.LineEffectsSteps | rita.go:314-332 | a line's effects follow the loop's steps: trim, prefix test, trim, empty/ping test, decode |
| Stream.Subscription.constructor | rita.go:297 | a 200 reply starts with an empty trace, an open body and an open channel |
| Stream.Subscription.Send | rita.go:332 | a send needs an open channel and appends one delivery |
| Stream.Subscription.CloseTheBody | rita.go:309 | appends the body close and marks the body closed |
| Stream.Subscription.CloseTheChannel | rita.go:310 | a close needs an open channel; it appends the channel close and marks the channel closed |
| Stream.Subscription.HandleLine | rita.go:314-332 | one pass of the loop body appends exactly the line's effects and closes nothing |
| Stream.Subscription.Run | rita.go:304-335 | the loop appends exactly Trace(input), and leaves body and channel closed exactly when a read failed |

## Left out

- HTTP transport: `http.NewRequest` and its error, headers, `DisableCompression` and the connection. A request is a verb, a URL and a body, and the reply is an input.
- The goroutine and the unbuffered channel: a sequential loop records its effects in a trace instead, so blocking sends, backpressure and the caller's receive side are not modelled.
- `url.Parse` is an input: the parsed URL, or None on failure. `Values.Encode`, percent-encoding, key sorting and `u.String()` are not modelled; the result is the URL record.
- Urls.Url has no `Opaque` field. A server value without `//`, such as `localhost:8080`, parses to scheme `localhost` with an opaque part. `u.String()` then writes the opaque part instead of the path, so the path set at rita.go:472 never reaches the request string. The model's request URL still carries that path.
- `json.Marshal` is an input (the bytes, or None on failure). The body decode of a reply is an input too.
- The stream's `json.Unmarshal` is a finite map from payload to event. A stream carries finitely many payloads, so this covers any decoder on one stream.
- `time.Time` parsing of `CreatedAt` and the `Data any` value: both are kept as their source text.
- Text.ToLower: lowers ASCII letters only; Go's `strings.ToLower` also lowers other Unicode letters.
- Text.IsSpace: the Unicode White_Space set that Go's `unicode.IsSpace` uses. Strings are sequences of code points. UTF-8 decoding and invalid byte sequences are not modelled.
- `fmt.Println` logging in the stream loop.
- The `reader == nil` check, which cannot succeed because `bufio.NewReader` never returns nil.
- `ServerUrlNotValid` is never returned by the client; each operation's contract excludes it.
- ritago_test.go is a live-network integration test, so there is nothing in it to model.
