/** The records and the error enumeration of types.go. */
module Types {
  import opened Wrappers

  /** The `CreatedAt` text of an event; parsing it into a time is not modelled. */
  type Timestamp = string

  /** A JSON value kept as its source text (the `Data any` field). */
  type RawJson = string

  /** The configuration a client is built from. */
  datatype RitaConfig = RitaConfig(url: string, apiKey: string)

  /** One event of a channel, as the server encodes it. */
  datatype RitaEvent = RitaEvent(id: string, createdAt: Timestamp, data: RawJson)

  /** The body the server answers a cursor fetch or a send with. */
  datatype CursorResponse = CursorResponse(eventId: string)

  /** The body of a historical fetch; a missing or null `events` leaves the list nil (None). */
  datatype EventsResponse = EventsResponse(events: Option<seq<RitaEvent>>)

  /** `ritaError` is a plain integer type: any int is a value of it. */
  newtype RitaError = int

  const ChannelNotValid: RitaError := 0
  const ServerNotConfig: RitaError := 1
  const ApikeyNotConfig: RitaError := 2
  const JsonNotValid: RitaError := 3
  const ServerUrlNotValid: RitaError := 4
  const NotAuthorized: RitaError := 5
  const Forbidden: RitaError := 6
  const UnknownError: RitaError := 7

  /** The eight named codes, in declaration order. */
  const Codes: seq<RitaError> :=
    [ChannelNotValid, ServerNotConfig, ApikeyNotConfig, JsonNotValid,
     ServerUrlNotValid, NotAuthorized, Forbidden, UnknownError]

  predicate IsCode(e: RitaError) {
    ChannelNotValid <= e <= UnknownError
  }

  /** The codes are the consecutive values 0 to 7, so they are pairwise distinct. */
  lemma CodesAreConsecutive()
    ensures forall i :: 0 <= i < |Codes| ==> Codes[i] as int == i
    ensures forall e :: IsCode(e) <==> e in Codes
  {
  }

  /** The message of a code; any value that is not one of the eight gives "unknown error". */
  function String(e: RitaError): (r: string)
    ensures IsCode(e) <==> r != "unknown error"
  {
    if e == ChannelNotValid then "the channel name is not valid"
    else if e == ServerNotConfig then "the server url is not setted"
    else if e == ApikeyNotConfig then "the apikey is not setted"
    else if e == JsonNotValid then "the object sent is not a json"
    else if e == ServerUrlNotValid then "the server url is not valid"
    else if e == NotAuthorized then "not authorized"
    else if e == Forbidden then "Forbidden"
    else if e == UnknownError then "forbidden"
    else "unknown error"
  }

  /** `Error()` delegates to `String()`. */
  function Error(e: RitaError): (r: string)
    ensures r == String(e)
  {
    String(e)
  }

  /**
   * Forbidden and UnknownError differ only in the case of their first letter:
   * the message of UnknownError is the lower-case "forbidden".
   */
  lemma ForbiddenMessages()
    ensures String(Forbidden) == "Forbidden" && String(UnknownError) == "forbidden"
    ensures String(Forbidden) != String(UnknownError)
  {
  }

  /** The nine messages are pairwise distinct: String tells the codes apart, and all other values share one message. */
  lemma StringInjective(a: RitaError, b: RitaError)
    ensures String(a) == String(b) <==> (a == b || (!IsCode(a) && !IsCode(b)))
  {
  }

  /** What an operation of the client returns as its error. */
  datatype ClientError =
    | Coded(code: RitaError)  // one of the client's own codes
    | UrlInvalid              // the error of `url.Parse`, returned as it is
    | RequestFailed           // the transport error of `client.Do`
    | BodyReadFailed          // the error of reading the response body
    | JsonDecodeFailed        // the error of decoding the response body
}
