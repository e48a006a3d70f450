/**
 * The client of rita.go: construction, the per-call checks (`ensureCan`), the
 * query maps, the status-code mapping and the six operations. The server is not
 * modelled: each operation returns the request it would issue (None when it
 * stops before issuing one), and the reply it gets is an input.
 */
module Client {
  import opened Wrappers
  import opened Text
  import opened Types
  import opened Urls

  /** The cursor value meaning "from the last event read" (`LAST_EVENT`). */
  const LastEvent: string := "$"

  /** The placeholder `createUrl` replaces by the channel. */
  const Placeholder: char := '$'

  /**
   * `/v1/event/`, the part of every template before the placeholder. It is
   * written as three pieces so that TemplateFacts can reason about each
   * piece on its own.
   */
  const EventPrefix: string := "/v1" + "/event" + "/"

  /** `/v1/event/$`, the send and subscribe template. */
  const SendTemplate: string := EventPrefix + [Placeholder]
  const SubTemplate: string := SendTemplate

  /** `/v1/event/$/last`, the cursor template. */
  const CursorTemplate: string := SendTemplate + "/last"

  /** A client; nothing updates its fields after construction. */
  datatype RitaClient = RitaClient(
    urlEventSend: string, urlEventSub: string, urlGetCursor: string,
    server: string, apikey: string)

  predicate HasFixedTemplates(c: RitaClient) {
    c.urlEventSend == SendTemplate && c.urlEventSub == SubTemplate && c.urlGetCursor == CursorTemplate
  }

  /**
   * `NewRitaClient`: the three fixed path templates, and the URL and API key
   * with their surrounding white space removed. Nothing is checked here.
   */
  function NewRitaClient(config: RitaConfig): (c: RitaClient)
    ensures HasFixedTemplates(c)
    ensures c.server == TrimSpace(config.url) && c.apikey == TrimSpace(config.apiKey)
    ensures Trimmed(c.server) && Trimmed(c.apikey)
    ensures c.server == [] <==> AllSpace(config.url)
    ensures c.apikey == [] <==> AllSpace(config.apiKey)
  {
    TrimSpaceEmpty(config.url);
    TrimSpaceEmpty(config.apiKey);
    RitaClient(SendTemplate, SubTemplate, CursorTemplate, TrimSpace(config.url), TrimSpace(config.apiKey))
  }

  // ---------------------------------------------------------------------------
  // ensureCan

  predicate IsLowerCase(s: string) {
    forall i :: 0 <= i < |s| ==> !IsUpperAscii(s[i])
  }

  /** The channel name trimmed, then lower-cased: trimmed, lower case, empty only if it was all white space. */
  function Normalize(channel: string): (r: string)
    ensures Trimmed(r) && IsLowerCase(r)
    ensures r == [] <==> AllSpace(channel)
  {
    var t := TrimSpace(channel);
    TrimSpaceEmpty(channel);
    ToLowerFacts(t);
    ToLower(t)
  }

  /** Normalising twice is normalising once. */
  lemma NormalizeIdempotent(channel: string)
    ensures Normalize(Normalize(channel)) == Normalize(channel)
  {
    var t := TrimSpace(channel);
    var n := ToLower(t);
    assert Normalize(channel) == n;
    TrimSpaceOfTrimmed(n);
    ToLowerFacts(t);
    assert Normalize(n) == ToLower(TrimSpace(n));
  }

  /** Surrounding white space and letter case do not matter to the channel a call addresses. */
  lemma NormalizeIgnoresSpaceAndCase(a: string, name: string, b: string)
    requires AllSpace(a) && AllSpace(b) && Trimmed(name)
    ensures Normalize(a + name + b) == ToLower(name)
    ensures Normalize(a + ToLower(name) + b) == Normalize(a + name + b)
  {
    TrimSpaceOf(a, name, b);
    ToLowerFacts(name);
    TrimSpaceOf(a, ToLower(name), b);
  }

  /**
   * `ensureCan`: the checks come in a fixed order (server, then API key, then
   * the normalised channel) and success gives the normalised channel.
   */
  function EnsureCan(c: RitaClient, channel: string): (r: Result<string, RitaError>)
    ensures r == Failure(ServerNotConfig) <==> c.server == []
    ensures r == Failure(ApikeyNotConfig) <==> c.server != [] && c.apikey == []
    ensures r == Failure(ChannelNotValid) <==> c.server != [] && c.apikey != [] && AllSpace(channel)
    ensures r.Failure? ==> r.error == ServerNotConfig || r.error == ApikeyNotConfig || r.error == ChannelNotValid
    ensures r.Success? ==> r.value == Normalize(channel) && r.value != []
  {
    var ch := Normalize(channel);
    if c.server == [] then Failure(ServerNotConfig)
    else if c.apikey == [] then Failure(ApikeyNotConfig)
    else if ch == [] then Failure(ChannelNotValid)
    else Success(ch)
  }

  // ---------------------------------------------------------------------------
  // Status codes and query maps

  /** The `switch` on the status code shared by all four operations; None is the 200 case. */
  function StatusError(status: int): (r: Option<RitaError>)
    ensures r.None? <==> status == 200
    ensures r == Some(NotAuthorized) <==> status == 401
    ensures r == Some(Forbidden) <==> status == 403 || status == 404
    ensures r == Some(UnknownError) <==> status != 200 && status != 401 && status != 403 && status != 404
  {
    if status == 200 then None
    else if status == 401 then Some(NotAuthorized)
    else if status == 403 || status == 404 then Some(Forbidden)
    else Some(UnknownError)
  }

  /** A status error is always one of the three codes reserved for replies. */
  lemma StatusErrorCodes(status: int)
    requires status != 200
    ensures StatusError(status).Some?
    ensures var e := StatusError(status).value; e == NotAuthorized || e == Forbidden || e == UnknownError
    ensures IsCode(StatusError(status).value) && StatusError(status).value != ServerUrlNotValid
  {
  }

  /** The `eventId` value: empty when the given id is blank, otherwise the id as given (not trimmed). */
  function EventIdParam(eventId: string): (r: string)
    ensures r == [] <==> AllSpace(eventId)
    ensures r != [] ==> r == eventId
  {
    TrimSpaceEmpty(eventId);
    if TrimSpace(eventId) != [] then eventId else []
  }

  /** The sentinel cursor is sent as it is, and an id keeps its surrounding white space. */
  lemma EventIdParamKeepsId(a: string, id: string, b: string)
    requires AllSpace(a) && AllSpace(b) && Trimmed(id) && id != []
    ensures EventIdParam(a + id + b) == a + id + b
    ensures EventIdParam(LastEvent) == LastEvent
  {
    TrimSpaceOf(a, id, b);
    assert !IsSpace(LastEvent[0]);
  }

  /** The query map of `SubEventSince` (sub = true) and `GetEventsSince` (sub = false). */
  function SinceParams(eventId: string, sub: bool): (m: map<string, string>)
    ensures m.Keys == {"eventId", "sub"}
    ensures m["eventId"] == EventIdParam(eventId)
    ensures m["sub"] == if sub then "true" else "false"
  {
    map["eventId" := EventIdParam(eventId), "sub" := if sub then "true" else "false"]
  }

  /** The map is built with an empty `eventId`, which a non-blank id then overwrites. */
  method QueryParams(eventId: string, sub: bool) returns (q: map<string, string>)
    ensures q == SinceParams(eventId, sub)
  {
    var flag := if sub then "true" else "false";
    q := map["eventId" := "", "sub" := flag];
    if TrimSpace(eventId) != "" {
      q := q["eventId" := eventId];
      assert |"eventId"| != |"sub"|;
      assert q == map["eventId" := eventId, "sub" := flag];
    }
  }

  // ---------------------------------------------------------------------------
  // Paths of the fixed templates

  /** A slash followed by characters that are not slashes holds no match. */
  lemma SlashWord(w: string)
    requires w != [] && w[0] == '/' && '/' !in w[1..]
    ensures NoRedundantSlash(w)
  {
    forall i | 0 <= i < |w| ensures !MatchAt(w, i) {
      if i + 1 < |w| {
        assert w[i + 1] == w[1..][i];
      }
    }
  }

  /** Two strings with no match join into one with no match when no slash run crosses the joint. */
  lemma NoRedundantSlashJoin(x: string, y: string)
    requires NoRedundantSlash(x) && NoRedundantSlash(y)
    requires x == [] || y == [] || !(x[|x| - 1] == '/' && y[0] == '/')
    requires |y| < 2 || !(y[0] == '/' && y[1] == '/')
    ensures NoRedundantSlash(x + y)
  {
    var s := x + y;
    forall i | 0 <= i < |s| ensures !MatchAt(s, i) {
      if i + 2 < |x| {
        assert !MatchAt(x, i);
      } else if i >= |x| {
        assert !MatchAt(y, i - |x|);
      }
    }
  }

  /** The fixed templates hold no slash run, and their only `$` is the placeholder after the prefix. */
  lemma TemplateFacts()
    ensures NoRedundantSlash(SendTemplate) && NoRedundantSlash(CursorTemplate)
    ensures Placeholder !in EventPrefix
  {
    var v, e, d, l := "/v1", "/event", "/" + [Placeholder], "/last";
    SlashWord(v);
    SlashWord(e);
    SlashWord(d);
    SlashWord(l);
    NoRedundantSlashJoin(e, d);
    NoRedundantSlashJoin(v, e + d);
    NoRedundantSlashJoin(d, l);
    NoRedundantSlashJoin(e, d + l);
    NoRedundantSlashJoin(v, e + (d + l));
    SeqAssoc(v + e, "/", [Placeholder]);
    SeqAssoc(v, e, d);
    assert SendTemplate == v + (e + d);
    SeqAssoc(v + e, d, l);
    SeqAssoc(v, e, d + l);
    SeqAssoc(e, d, l);
    assert CursorTemplate == v + (e + (d + l));
  }

  /** The send and subscribe template: the path is the channel under `/v1/event/`, whatever the channel holds. */
  lemma SendTemplatePath(channel: string)
    ensures PathFor(SendTemplate, channel) == EventPrefix + channel
  {
    TemplateFacts();
    CollapseIdentity(SendTemplate);
    assert SendTemplate == EventPrefix + ([Placeholder] + []);
    ReplaceFirstAt(EventPrefix, Placeholder, [], channel);
    assert channel + [] == channel;
  }

  /** The cursor template: the path is the channel under `/v1/event/`, then `/last`. */
  lemma CursorTemplatePath(channel: string)
    ensures PathFor(CursorTemplate, channel) == EventPrefix + channel + "/last"
  {
    TemplateFacts();
    CollapseIdentity(CursorTemplate);
    SeqAssoc(EventPrefix, [Placeholder], "/last");
    ReplaceFirstAt(EventPrefix, Placeholder, "/last", channel);
    SeqAssoc(EventPrefix, channel, "/last");
  }

  /** Both fixed templates, as the operations use them. */
  lemma FixedTemplatePaths(channel: string)
    ensures PathFor(SendTemplate, channel) == EventPrefix + channel
    ensures PathFor(CursorTemplate, channel) == EventPrefix + channel + "/last"
  {
    SendTemplatePath(channel);
    CursorTemplatePath(channel);
  }

  // ---------------------------------------------------------------------------
  // The operations

  datatype Verb = Get | Post

  /** The request an operation issues: verb, URL and body. Headers are not modelled. */
  datatype Request = Request(verb: Verb, url: Url, body: Option<string>)

  /** What `client.Do` gave back: an error, or a response with its status code. */
  datatype Reply = DoFailed | Replied(status: int)

  /** Reading and decoding the body of a 200 response. */
  datatype Body<T> = ReadFailed | Malformed | Decoded(value: T)

  /** The handling of a reply that carries an event id (cursor fetch and send). */
  function EventIdReply(reply: Reply, body: Body<CursorResponse>): (r: Result<string, ClientError>)
    ensures reply.DoFailed? ==> r == Failure(RequestFailed)
    ensures reply.Replied? && reply.status != 200 ==> r == Failure(Coded(StatusError(reply.status).value))
    ensures r.Success? <==> reply == Replied(200) && body.Decoded?
    ensures r.Success? ==> r.value == body.value.eventId
    ensures reply == Replied(200) && body.ReadFailed? ==> r == Failure(BodyReadFailed)
    ensures reply == Replied(200) && body.Malformed? ==> r == Failure(JsonDecodeFailed)
  {
    match reply
    case DoFailed => Failure(RequestFailed)
    case Replied(status) =>
      match StatusError(status)
      case Some(e) => Failure(Coded(e))
      case None =>
        match body
        case ReadFailed => Failure(BodyReadFailed)
        case Malformed => Failure(JsonDecodeFailed)
        case Decoded(cr) => Success(cr.eventId)
  }

  /** `GetCursor`: ensureCan, createUrl with no query map, then a GET whose reply carries the event id. */
  method GetCursor(c: RitaClient, channel: string, parsed: Option<Url>, reply: Reply, body: Body<CursorResponse>)
    returns (req: Option<Request>, res: Result<string, ClientError>)
    ensures EnsureCan(c, channel).Failure? ==> req.None? && res == Failure(Coded(EnsureCan(c, channel).error))
    ensures EnsureCan(c, channel).Success? && parsed.None? ==> req.None? && res == Failure(UrlInvalid)
    ensures req.Some? <==> EnsureCan(c, channel).Success? && parsed.Some?
    ensures req.Some? ==>
      && req.value.verb == Get && req.value.body.None?
      && req.value.url == parsed.value.(path := PathFor(c.urlGetCursor, Normalize(channel)))
      && res == EventIdReply(reply, body)
    ensures req.Some? && HasFixedTemplates(c) ==> req.value.url.path == EventPrefix + Normalize(channel) + "/last"
    ensures res != Failure(Coded(ServerUrlNotValid))
  {
    var checked := EnsureCan(c, channel);
    if checked.Failure? {
      return None, Failure(Coded(checked.error));
    }
    var ch := checked.value;
    var url := CreateUrl(parsed, ch, c.urlGetCursor, None);
    if url.Failure? {
      return None, Failure(url.error);
    }
    FixedTemplatePaths(ch);
    req := Some(Request(Get, url.value, None));
    res := EventIdReply(reply, body);
    if reply.Replied? && reply.status != 200 {
      StatusErrorCodes(reply.status);
    }
  }

  /**
   * `SendEvent`: ensureCan, then createUrl, then marshalling the data
   * (`marshalled` is the outcome of `json.Marshal`; a failure is JsonNotValid),
   * then a POST whose reply carries the new event's id.
   */
  method SendEvent(c: RitaClient, channel: string, marshalled: Option<string>, parsed: Option<Url>,
                   reply: Reply, body: Body<CursorResponse>)
    returns (req: Option<Request>, res: Result<string, ClientError>)
    ensures EnsureCan(c, channel).Failure? ==> req.None? && res == Failure(Coded(EnsureCan(c, channel).error))
    ensures EnsureCan(c, channel).Success? && parsed.None? ==> req.None? && res == Failure(UrlInvalid)
    ensures EnsureCan(c, channel).Success? && parsed.Some? && marshalled.None? ==>
      req.None? && res == Failure(Coded(JsonNotValid))
    ensures req.Some? <==> EnsureCan(c, channel).Success? && parsed.Some? && marshalled.Some?
    ensures req.Some? ==>
      && req.value.verb == Post && req.value.body == marshalled
      && req.value.url == parsed.value.(path := PathFor(c.urlEventSend, Normalize(channel)))
      && res == EventIdReply(reply, body)
    ensures req.Some? && HasFixedTemplates(c) ==> req.value.url.path == EventPrefix + Normalize(channel)
    ensures res != Failure(Coded(ServerUrlNotValid))
  {
    var checked := EnsureCan(c, channel);
    if checked.Failure? {
      return None, Failure(Coded(checked.error));
    }
    var ch := checked.value;
    var url := CreateUrl(parsed, ch, c.urlEventSend, None);
    if url.Failure? {
      return None, Failure(url.error);
    }
    if marshalled.None? {
      return None, Failure(Coded(JsonNotValid));
    }
    FixedTemplatePaths(ch);
    req := Some(Request(Post, url.value, marshalled));
    res := EventIdReply(reply, body);
    if reply.Replied? && reply.status != 200 {
      StatusErrorCodes(reply.status);
    }
  }

  /** The query a since-operation sends: the server URL's own keys, with `eventId` and `sub` set over them. */
  function SinceQuery(base: map<string, seq<string>>, eventId: string, sub: bool): (q: map<string, seq<string>>)
    ensures q.Keys == base.Keys + {"eventId", "sub"}
    ensures q["eventId"] == [EventIdParam(eventId)] && q["sub"] == [if sub then "true" else "false"]
    ensures forall k :: k in base && k != "eventId" && k != "sub" ==> q[k] == base[k]
  {
    SetParams(base, SinceParams(eventId, sub))
  }

  /**
   * `SubEventSince`: ensureCan, the query map with sub = true, createUrl, then
   * a streaming GET. Only a 200 reply opens the stream (Success); the line
   * reader that then runs is the Stream module.
   */
  method SubEventSince(c: RitaClient, channel: string, eventId: string, parsed: Option<Url>, reply: Reply)
    returns (req: Option<Request>, res: Result<(), ClientError>)
    ensures EnsureCan(c, channel).Failure? ==> req.None? && res == Failure(Coded(EnsureCan(c, channel).error))
    ensures EnsureCan(c, channel).Success? && parsed.None? ==> req.None? && res == Failure(UrlInvalid)
    ensures req.Some? <==> EnsureCan(c, channel).Success? && parsed.Some?
    ensures req.Some? ==>
      && req.value.verb == Get && req.value.body.None?
      && req.value.url == parsed.value.(path := PathFor(c.urlEventSub, Normalize(channel)),
                                        query := SinceQuery(parsed.value.query, eventId, true))
    ensures req.Some? && HasFixedTemplates(c) ==> req.value.url.path == EventPrefix + Normalize(channel)
    ensures res.Success? <==> req.Some? && reply == Replied(200)
    ensures req.Some? && reply.DoFailed? ==> res == Failure(RequestFailed)
    ensures req.Some? && reply.Replied? && reply.status != 200 ==> res == Failure(Coded(StatusError(reply.status).value))
    ensures res != Failure(Coded(ServerUrlNotValid))
  {
    var checked := EnsureCan(c, channel);
    if checked.Failure? {
      return None, Failure(Coded(checked.error));
    }
    var ch := checked.value;
    var params := QueryParams(eventId, true);
    var url := CreateUrl(parsed, ch, c.urlEventSub, Some(params));
    if url.Failure? {
      return None, Failure(url.error);
    }
    FixedTemplatePaths(ch);
    req := Some(Request(Get, url.value, None));
    match reply
    case DoFailed =>
      res := Failure(RequestFailed);
    case Replied(status) =>
      var e := StatusError(status);
      if e.None? {
        res := Success(());
      } else {
        StatusErrorCodes(status);
        res := Failure(Coded(e.value));
      }
  }

  /** `SubEvent`: `SubEventSince` with no cursor, so `eventId` is sent empty. */
  method SubEvent(c: RitaClient, channel: string, parsed: Option<Url>, reply: Reply)
    returns (req: Option<Request>, res: Result<(), ClientError>)
    ensures EnsureCan(c, channel).Failure? ==> req.None? && res == Failure(Coded(EnsureCan(c, channel).error))
    ensures EnsureCan(c, channel).Success? && parsed.None? ==> req.None? && res == Failure(UrlInvalid)
    ensures req.Some? <==> EnsureCan(c, channel).Success? && parsed.Some?
    ensures req.Some? ==>
      && req.value.verb == Get && req.value.body.None?
      && req.value.url == parsed.value.(path := PathFor(c.urlEventSub, Normalize(channel)),
                                        query := SinceQuery(parsed.value.query, "", true))
    ensures req.Some? ==> req.value.url.query["eventId"] == [""] && req.value.url.query["sub"] == ["true"]
    ensures req.Some? && HasFixedTemplates(c) ==> req.value.url.path == EventPrefix + Normalize(channel)
    ensures res.Success? <==> req.Some? && reply == Replied(200)
    ensures req.Some? && reply.DoFailed? ==> res == Failure(RequestFailed)
    ensures req.Some? && reply.Replied? && reply.status != 200 ==> res == Failure(Coded(StatusError(reply.status).value))
    ensures res != Failure(Coded(ServerUrlNotValid))
  {
    req, res := SubEventSince(c, channel, "", parsed, reply);
  }

  /**
   * `GetEventsSince`: ensureCan, the query map with sub = false, createUrl,
   * then a GET whose body holds the events. Go returns a list and an error
   * side by side: failures before a response give an empty list, a status
   * error gives nil (None).
   */
  method GetEventsSince(c: RitaClient, channel: string, eventId: string, parsed: Option<Url>,
                        reply: Reply, body: Body<EventsResponse>)
    returns (req: Option<Request>, events: Option<seq<RitaEvent>>, err: Option<ClientError>)
    ensures EnsureCan(c, channel).Failure? ==>
      req.None? && events == Some([]) && err == Some(Coded(EnsureCan(c, channel).error))
    ensures EnsureCan(c, channel).Success? && parsed.None? ==>
      req.None? && events == Some([]) && err == Some(UrlInvalid)
    ensures req.Some? <==> EnsureCan(c, channel).Success? && parsed.Some?
    ensures req.Some? ==>
      && req.value.verb == Get && req.value.body.None?
      && req.value.url == parsed.value.(path := PathFor(c.urlEventSub, Normalize(channel)),
                                        query := SinceQuery(parsed.value.query, eventId, false))
    ensures req.Some? && HasFixedTemplates(c) ==> req.value.url.path == EventPrefix + Normalize(channel)
    ensures err.None? <==> req.Some? && reply == Replied(200) && body.Decoded?
    ensures err.None? ==> events == body.value.events
    ensures req.Some? && reply.Replied? && reply.status != 200 ==>
      events.None? && err == Some(Coded(StatusError(reply.status).value))
    ensures req.Some? && reply.DoFailed? ==> events == Some([]) && err == Some(RequestFailed)
    ensures req.Some? && reply == Replied(200) && body.ReadFailed? ==> events == Some([]) && err == Some(BodyReadFailed)
    ensures req.Some? && reply == Replied(200) && body.Malformed? ==> events == Some([]) && err == Some(JsonDecodeFailed)
    ensures err != Some(Coded(ServerUrlNotValid))
  {
    var checked := EnsureCan(c, channel);
    if checked.Failure? {
      return None, Some([]), Some(Coded(checked.error));
    }
    var ch := checked.value;
    var params := QueryParams(eventId, false);
    var url := CreateUrl(parsed, ch, c.urlEventSub, Some(params));
    if url.Failure? {
      return None, Some([]), Some(url.error);
    }
    FixedTemplatePaths(ch);
    req := Some(Request(Get, url.value, None));
    match reply
    case DoFailed =>
      events, err := Some([]), Some(RequestFailed);
    case Replied(status) =>
      var e := StatusError(status);
      if e.Some? {
        StatusErrorCodes(status);
        events, err := None, Some(Coded(e.value));
      } else {
        match body
        case ReadFailed =>
          events, err := Some([]), Some(BodyReadFailed);
        case Malformed =>
          events, err := Some([]), Some(JsonDecodeFailed);
        case Decoded(r) =>
          events, err := r.events, None;
      }
  }

  /** `GetEvents`: `GetEventsSince` with no cursor, so `eventId` is sent empty. */
  method GetEvents(c: RitaClient, channel: string, parsed: Option<Url>, reply: Reply, body: Body<EventsResponse>)
    returns (req: Option<Request>, events: Option<seq<RitaEvent>>, err: Option<ClientError>)
    ensures EnsureCan(c, channel).Failure? ==>
      req.None? && events == Some([]) && err == Some(Coded(EnsureCan(c, channel).error))
    ensures EnsureCan(c, channel).Success? && parsed.None? ==>
      req.None? && events == Some([]) && err == Some(UrlInvalid)
    ensures req.Some? <==> EnsureCan(c, channel).Success? && parsed.Some?
    ensures req.Some? ==>
      && req.value.verb == Get && req.value.body.None?
      && req.value.url == parsed.value.(path := PathFor(c.urlEventSub, Normalize(channel)),
                                        query := SinceQuery(parsed.value.query, "", false))
    ensures req.Some? ==> req.value.url.query["eventId"] == [""] && req.value.url.query["sub"] == ["false"]
    ensures req.Some? && HasFixedTemplates(c) ==> req.value.url.path == EventPrefix + Normalize(channel)
    ensures err.None? <==> req.Some? && reply == Replied(200) && body.Decoded?
    ensures err.None? ==> events == body.value.events
    ensures req.Some? && reply.Replied? && reply.status != 200 ==>
      events.None? && err == Some(Coded(StatusError(reply.status).value))
    ensures req.Some? && reply.DoFailed? ==> events == Some([]) && err == Some(RequestFailed)
    ensures req.Some? && reply == Replied(200) && body.ReadFailed? ==> events == Some([]) && err == Some(BodyReadFailed)
    ensures req.Some? && reply == Replied(200) && body.Malformed? ==> events == Some([]) && err == Some(JsonDecodeFailed)
    ensures err != Some(Coded(ServerUrlNotValid))
  {
    req, events, err := GetEventsSince(c, channel, "", parsed, reply, body);
  }
}
