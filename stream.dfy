/**
 * The reader of a subscription: the goroutine `SubEventSince` starts on a 200
 * reply. It reads the body line by line, keeps the `data:` lines whose payload
 * is neither empty nor the `ping` keepalive and decodes, and sends each decoded
 * event on the channel; at the first read error it closes the body, then the
 * channel. The goroutine and the unbuffered Go channel are replaced by a
 * sequential loop that records what it does, in order, in a trace.
 */
module Stream {
  import opened Wrappers
  import opened Text
  import opened Types

  /** One result of `reader.ReadBytes('\n')`: a line with its terminator, or an error with the bytes read before it. */
  datatype Read = Line(text: string) | ReadError(partial: string)

  /**
   * What `json.Unmarshal` makes of the payloads a stream carries: each payload
   * that decodes, with the event it decodes to; a payload outside the map fails
   * to decode. A stream carries finitely many payloads, so a finite map
   * describes any decoder on it.
   */
  type Decoder = map<string, RitaEvent>

  /** `json.Unmarshal([]byte(payload), &event)`: None when it fails. */
  function Unmarshal(decode: Decoder, payload: string): Option<RitaEvent> {
    if payload in decode then Some(decode[payload]) else None
  }

  const DataPrefix: string := "data:"
  const Keepalive: string := "ping"

  // ---------------------------------------------------------------------------
  // One line

  /**
   * The payload of a line: the line trimmed must start with `data:`; the rest
   * trimmed again is the payload, unless it is empty or the keepalive.
   */
  function Payload(line: string): (r: Option<string>)
    ensures r.Some? ==> HasPrefix(TrimSpace(line), DataPrefix)
    ensures r.Some? ==> Trimmed(r.value) && r.value != [] && r.value != Keepalive
  {
    var strLine := TrimSpace(line);
    if !HasPrefix(strLine, DataPrefix) then None
    else
      var eventData := TrimSpace(TrimPrefix(strLine, DataPrefix));
      if eventData == [] || eventData == Keepalive then None else Some(eventData)
  }

  /**
   * The reference reading of a data line: white space, `data:`, white space, a
   * trimmed payload, white space. The payload is delivered unless it is empty
   * or the keepalive.
   */
  lemma PayloadOf(a: string, w: string, p: string, b: string)
    requires AllSpace(a) && AllSpace(w) && AllSpace(b) && Trimmed(p)
    ensures Payload(a + DataPrefix + w + p + b) == if p == [] || p == Keepalive then None else Some(p)
  {
    if p == [] {
      assert a + DataPrefix + w + p + b == a + DataPrefix + (w + b);
      PayloadOfBare(a, w + b);
    } else {
      PayloadOfData(a, w, p, b);
    }
  }

  /** Payload read off its two trimming steps. */
  lemma PayloadIs(line: string, d: string)
    requires HasPrefix(TrimSpace(line), DataPrefix)
    requires TrimSpace(TrimPrefix(TrimSpace(line), DataPrefix)) == d
    ensures Payload(line) == if d == [] || d == Keepalive then None else Some(d)
  {
  }

  /** `data:` with nothing but white space around it carries no payload. */
  lemma PayloadOfBare(a: string, t: string)
    requires AllSpace(a) && AllSpace(t)
    ensures Payload(a + DataPrefix + t) == None
  {
    TrimSpaceOf(a, DataPrefix, t);
    assert TrimPrefix(DataPrefix, DataPrefix) == [];
    PayloadIs(a + DataPrefix + t, []);
  }

  /** A line whose trimmed text does not start with `data:` carries no payload. */
  lemma PayloadOfOther(a: string, m: string, b: string)
    requires AllSpace(a) && AllSpace(b) && Trimmed(m) && !HasPrefix(m, DataPrefix)
    ensures Payload(a + m + b) == None
  {
    TrimSpaceOf(a, m, b);
  }

  lemma PayloadOfData(a: string, w: string, p: string, b: string)
    requires AllSpace(a) && AllSpace(w) && AllSpace(b) && Trimmed(p) && p != []
    ensures Payload(a + DataPrefix + w + p + b) == if p == Keepalive then None else Some(p)
  {
    var body := DataPrefix + w + p;
    assert a + DataPrefix + w + p + b == a + body + b;
    DataBody(w, p);
    TrimSpaceOf(a, body, b);
    TrimSpaceOf(w, p, []);
    assert w + p + [] == w + p;
    PayloadIs(a + body + b, p);
  }

  /** The trimmed line `data:`, white space, a non-empty payload: its prefix taken off leaves the rest. */
  lemma DataBody(w: string, p: string)
    requires Trimmed(p) && p != []
    ensures Trimmed(DataPrefix + w + p)
    ensures HasPrefix(DataPrefix + w + p, DataPrefix)
    ensures TrimPrefix(DataPrefix + w + p, DataPrefix) == w + p
  {
    var body := DataPrefix + w + p;
    assert body == DataPrefix + (w + p);
    assert body[0] == 'd' && body[|body| - 1] == p[|p| - 1];
    assert body[..|DataPrefix|] == DataPrefix;
  }

  /** Every delivered payload comes from a line of exactly that reference shape. */
  lemma PayloadShape(line: string) returns (a: string, w: string, b: string)
    requires Payload(line).Some?
    ensures AllSpace(a) && AllSpace(w) && AllSpace(b)
    ensures line == a + DataPrefix + w + Payload(line).value + b
  {
    var strLine := TrimSpace(line);
    var i, j := TrimSpaceShape(line);
    var rest := TrimPrefix(strLine, DataPrefix);
    var pay := TrimSpace(rest);
    assert pay == Payload(line).value;
    var i', j' := TrimSpaceShape(rest);
    a, w := line[..i], rest[..i'];
    var b1, b2 := rest[j'..], line[j..];
    b := b1 + b2;
    AllSpaceAppend(b1, b2);
    SplitAt(line, i, j);
    SplitAt(rest, i', j');
    assert line == a + (DataPrefix + (w + pay + b1)) + b2;
    SeqAssoc5(a, DataPrefix, w, pay, b1, b2);
  }

  lemma SplitAt(s: string, i: nat, j: nat)
    requires i <= j <= |s|
    ensures s == s[..i] + s[i..j] + s[j..]
  {
  }

  lemma AllSpaceAppend(x: string, y: string)
    requires AllSpace(x) && AllSpace(y)
    ensures AllSpace(x + y)
  {
    forall k | 0 <= k < |x + y| ensures IsSpace((x + y)[k]) {
      if k >= |x| { assert (x + y)[k] == y[k - |x|]; }
    }
  }

  lemma SeqAssoc5(a: string, d: string, w: string, p: string, b1: string, b2: string)
    ensures a + (d + (w + p + b1)) + b2 == a + d + w + p + (b1 + b2)
  {
  }

  /** The event a line yields, if any. */
  function LineEvent(line: string, decode: Decoder): (r: Option<RitaEvent>)
    ensures r.Some? <==> Payload(line).Some? && Payload(line).value in decode
    ensures r.Some? ==> r.value == decode[Payload(line).value]
  {
    match Payload(line)
    case None => None
    case Some(p) => Unmarshal(decode, p)
  }

  // ---------------------------------------------------------------------------
  // The whole stream

  /** What one read amounts to for the reader: an event to send, nothing, or the end. */
  datatype Outcome = Yields(event: RitaEvent) | Skips | Fails

  function OutcomeOf(r: Read, decode: Decoder): (o: Outcome)
    ensures o.Fails? <==> r.ReadError?
  {
    match r
    case ReadError(_) => Fails
    case Line(text) =>
      match LineEvent(text, decode)
      case Some(e) => Yields(e)
      case None => Skips
  }

  /** The outcome of every read, in order. */
  function Outcomes(input: seq<Read>, decode: Decoder): (r: seq<Outcome>)
    ensures |r| == |input|
  {
    seq(|input|, i requires 0 <= i < |input| => OutcomeOf(input[i], decode))
  }

  /** Some read in `input` failed. */
  predicate Ends(input: seq<Read>) {
    input != [] && (input[0].ReadError? || Ends(input[1..]))
  }

  /** Some outcome is the end of the stream. */
  predicate Failed(os: seq<Outcome>) {
    os != [] && (os[0].Fails? || Failed(os[1..]))
  }

  /** The events sent for `os`: those before the first failure, in order. */
  function Events(os: seq<Outcome>): (r: seq<RitaEvent>)
    ensures |r| <= |os|
  {
    if os == [] then []
    else match os[0]
      case Fails => []
      case Skips => Events(os[1..])
      case Yields(e) => [e] + Events(os[1..])
  }

  /** What the reader does, in order. */
  datatype Effect = Deliver(event: RitaEvent) | CloseBody | CloseChannel

  /** What the reader does for `os`: a delivery per event, and at the first failure the two closes. */
  function Effects(os: seq<Outcome>): (r: seq<Effect>)
    ensures |r| <= |os| + 1
  {
    if os == [] then []
    else match os[0]
      case Fails => [CloseBody, CloseChannel]
      case Skips => Effects(os[1..])
      case Yields(e) => [Deliver(e)] + Effects(os[1..])
  }

  /** The events delivered: those of the lines read before the first read error, in arrival order. */
  function Delivered(input: seq<Read>, decode: Decoder): (r: seq<RitaEvent>)
    ensures |r| <= |input|
  {
    Events(Outcomes(input, decode))
  }

  /** The effects of the reader on `input`: every line's delivery, then at the first error the two closes. */
  function Trace(input: seq<Read>, decode: Decoder): (r: seq<Effect>)
    ensures |r| <= |input| + 1
  {
    Effects(Outcomes(input, decode))
  }

  /** The events one line read without error delivers: none or one. */
  function LineEvents(text: string, decode: Decoder): (r: seq<RitaEvent>)
    ensures |r| <= 1
  {
    match LineEvent(text, decode)
    case Some(e) => [e]
    case None => []
  }

  /** The effects of one line read without error. */
  function LineEffects(text: string, decode: Decoder): seq<Effect> {
    match LineEvent(text, decode)
    case Some(e) => [Deliver(e)]
    case None => []
  }

  /** One delivery per event, in order. */
  function Deliveries(events: seq<RitaEvent>): (r: seq<Effect>)
    ensures |r| == |events|
  {
    if events == [] then [] else [Deliver(events[0])] + Deliveries(events[1..])
  }

  lemma {:induction false} DeliveriesAt(events: seq<RitaEvent>, k: nat)
    requires k < |events|
    ensures Deliveries(events)[k] == Deliver(events[k])
  {
    if k > 0 {
      DeliveriesAt(events[1..], k - 1);
    }
  }

  lemma {:induction false} DeliveriesAppend(a: seq<RitaEvent>, b: seq<RitaEvent>)
    ensures Deliveries(a + b) == Deliveries(a) + Deliveries(b)
  {
    if a == [] {
      assert a + b == b;
    } else {
      assert (a + b)[1..] == a[1..] + b;
      DeliveriesAppend(a[1..], b);
    }
  }

  /** The effects of outcomes are the deliveries of their events, then the closes exactly when one failed. */
  lemma {:induction false} EffectsShape(os: seq<Outcome>)
    ensures Effects(os) == Deliveries(Events(os)) + (if Failed(os) then [CloseBody, CloseChannel] else [])
  {
    if os != [] && !os[0].Fails? {
      var rest := os[1..];
      EffectsShape(rest);
      if os[0].Yields? {
        var e := os[0].event;
        var closes: seq<Effect> := if Failed(rest) then [CloseBody, CloseChannel] else [];
        assert Deliveries([e] + Events(rest)) == [Deliver(e)] + Deliveries(Events(rest)) by {
          assert ([e] + Events(rest))[1..] == Events(rest);
        }
        SeqAssoc([Deliver(e)], Deliveries(Events(rest)), closes);
      }
    }
  }

  lemma {:induction false} FailedAppend(x: seq<Outcome>, y: seq<Outcome>)
    requires !Failed(x)
    ensures Failed(x + y) == Failed(y)
  {
    if x == [] {
      assert x + y == y;
    } else {
      assert (x + y)[0] == x[0] && (x + y)[1..] == x[1..] + y;
      FailedAppend(x[1..], y);
    }
  }

  lemma {:induction false} EffectsAppend(x: seq<Outcome>, y: seq<Outcome>)
    requires !Failed(x)
    ensures Effects(x + y) == Effects(x) + Effects(y)
  {
    if x == [] {
      assert x + y == y;
    } else {
      assert (x + y)[0] == x[0] && (x + y)[1..] == x[1..] + y;
      EffectsAppend(x[1..], y);
      if x[0].Yields? {
        SeqAssoc([Deliver(x[0].event)], Effects(x[1..]), Effects(y));
      }
    }
  }

  lemma {:induction false} EventsAppend(x: seq<Outcome>, y: seq<Outcome>)
    requires !Failed(x)
    ensures Events(x + y) == Events(x) + Events(y)
  {
    if x == [] {
      assert x + y == y;
    } else {
      assert (x + y)[0] == x[0] && (x + y)[1..] == x[1..] + y;
      EventsAppend(x[1..], y);
      if x[0].Yields? {
        SeqAssoc([x[0].event], Events(x[1..]), Events(y));
      }
    }
  }

  /** The outcomes of two pieces of input are those of each piece. */
  lemma OutcomesAppend(a: seq<Read>, b: seq<Read>, decode: Decoder)
    ensures Outcomes(a + b, decode) == Outcomes(a, decode) + Outcomes(b, decode)
  {
    var l, r := Outcomes(a + b, decode), Outcomes(a, decode) + Outcomes(b, decode);
    forall i | 0 <= i < |l|
      ensures l[i] == r[i]
    {
      if i < |a| {
        assert (a + b)[i] == a[i];
      } else {
        assert (a + b)[i] == b[i - |a|];
      }
    }
  }

  lemma OutcomesTail(input: seq<Read>, decode: Decoder)
    requires input != []
    ensures Outcomes(input, decode)[1..] == Outcomes(input[1..], decode)
  {
    var l, r := Outcomes(input, decode)[1..], Outcomes(input[1..], decode);
    forall i | 0 <= i < |l|
      ensures l[i] == r[i]
    {
      assert input[1..][i] == input[i + 1];
    }
  }

  lemma OutcomesOne(r: Read, decode: Decoder)
    ensures Outcomes([r], decode) == [OutcomeOf(r, decode)]
  {
  }

  /** The outcomes end the stream exactly when a read failed. */
  lemma {:induction false} OutcomesEnds(input: seq<Read>, decode: Decoder)
    ensures Failed(Outcomes(input, decode)) == Ends(input)
  {
    if input != [] {
      OutcomesTail(input, decode);
      OutcomesEnds(input[1..], decode);
    }
  }

  lemma EndsCons(r: Read, input: seq<Read>)
    ensures Ends([r] + input) <==> r.ReadError? || Ends(input)
  {
    assert ([r] + input)[1..] == input;
  }

  /**
   * The trace is the deliveries of the delivered events, in order, followed by
   * the body's close and the channel's close exactly when a read failed.
   */
  lemma TraceShape(input: seq<Read>, decode: Decoder)
    ensures Trace(input, decode) ==
      Deliveries(Delivered(input, decode)) + (if Ends(input) then [CloseBody, CloseChannel] else [])
  {
    EffectsShape(Outcomes(input, decode));
    OutcomesEnds(input, decode);
  }

  /**
   * A stream that ended closes the channel exactly once, as the very last
   * effect, right after the body; every earlier effect is a delivery.
   */
  lemma ClosedOnceAtEnd(input: seq<Read>, decode: Decoder)
    requires Ends(input)
    ensures var t := Trace(input, decode);
      && |t| >= 2 && t[|t| - 1] == CloseChannel && t[|t| - 2] == CloseBody
      && forall k :: 0 <= k < |t| - 2 ==> t[k].Deliver?
  {
    TraceShape(input, decode);
    var es := Delivered(input, decode);
    forall k | 0 <= k < |es|
      ensures Trace(input, decode)[k].Deliver?
    {
      DeliveriesAt(es, k);
    }
  }

  /** A stream that has not failed yet closes nothing: it only delivers. */
  lemma OpenWhileNoError(input: seq<Read>, decode: Decoder)
    requires !Ends(input)
    ensures forall k :: 0 <= k < |Trace(input, decode)| ==> Trace(input, decode)[k].Deliver?
  {
    TraceShape(input, decode);
    var es := Delivered(input, decode);
    assert Trace(input, decode) == Deliveries(es) + [];
    forall k | 0 <= k < |es|
      ensures Trace(input, decode)[k].Deliver?
    {
      DeliveriesAt(es, k);
    }
  }

  /** Reading on after lines without error: the trace of the rest follows on. */
  lemma TraceAppend(a: seq<Read>, b: seq<Read>, decode: Decoder)
    requires !Ends(a)
    ensures Trace(a + b, decode) == Trace(a, decode) + Trace(b, decode)
  {
    OutcomesAppend(a, b, decode);
    OutcomesEnds(a, decode);
    EffectsAppend(Outcomes(a, decode), Outcomes(b, decode));
  }

  /** Events arrive in order: the deliveries of later lines come after those of earlier ones. */
  lemma DeliveredAppend(a: seq<Read>, b: seq<Read>, decode: Decoder)
    requires !Ends(a)
    ensures Delivered(a + b, decode) == Delivered(a, decode) + Delivered(b, decode)
  {
    OutcomesAppend(a, b, decode);
    OutcomesEnds(a, decode);
    EventsAppend(Outcomes(a, decode), Outcomes(b, decode));
  }

  /** Reads after the first error, and the bytes returned with it, have no effect. */
  lemma ErrorDiscardsRest(a: seq<Read>, partial: string, rest: seq<Read>, decode: Decoder)
    requires !Ends(a)
    ensures Trace(a + [ReadError(partial)] + rest, decode) == Trace(a, decode) + [CloseBody, CloseChannel]
    ensures Delivered(a + [ReadError(partial)] + rest, decode) == Delivered(a, decode)
  {
    var tail := [ReadError(partial)] + rest;
    assert a + [ReadError(partial)] + rest == a + tail;
    TraceAppend(a, tail, decode);
    DeliveredAppend(a, tail, decode);
    assert Outcomes(tail, decode)[0] == Fails;
  }

  /** A single line: its effects and events as one outcome. */
  lemma TraceOne(r: Read, decode: Decoder)
    requires r.Line?
    ensures Trace([r], decode) == LineEffects(r.text, decode)
    ensures Delivered([r], decode) == LineEvents(r.text, decode)
    ensures !Ends([r])
  {
    OutcomesOne(r, decode);
    var o := OutcomeOf(r, decode);
    assert [o][1..] == [];
    assert [r][1..] == [];
    match LineEvent(r.text, decode)
    case Some(e) =>
      assert o == Yields(e);
      assert Effects([o]) == [Deliver(e)] + Effects([]);
      assert Events([o]) == [e] + Events([]);
    case None =>
      assert o == Skips;
      assert Effects([o]) == Effects([]) && Events([o]) == Events([]);
  }

  /** A line that yields nothing, a failed decode included, is skipped and the stream goes on. */
  lemma SkippedLine(text: string, rest: seq<Read>, decode: Decoder)
    requires LineEvent(text, decode).None?
    ensures Trace([Line(text)] + rest, decode) == Trace(rest, decode)
    ensures Delivered([Line(text)] + rest, decode) == Delivered(rest, decode)
    ensures Ends([Line(text)] + rest) == Ends(rest)
  {
    TraceOne(Line(text), decode);
    TraceAppend([Line(text)], rest, decode);
    DeliveredAppend([Line(text)], rest, decode);
    EndsCons(Line(text), rest);
  }

  // ---------------------------------------------------------------------------
  // Examples of single lines

  /** `data: <json>` is delivered as the event the payload decodes to. */
  lemma DataLineExample(decode: Decoder, json: string, e: RitaEvent)
    requires Trimmed(json) && json != [] && json != Keepalive && Unmarshal(decode, json) == Some(e)
    ensures Delivered([Line("data: " + json + "\n")], decode) == [e]
  {
    assert "data: " + json + "\n" == [] + DataPrefix + " " + json + "\n";
    PayloadOf([], " ", json, "\n");
    TraceOne(Line("data: " + json + "\n"), decode);
  }

  /** The keepalive `data: ping` delivers nothing and does not end the stream. */
  lemma PingLineExample(decode: Decoder)
    ensures Delivered([Line("data: ping\n")], decode) == [] && !Ends([Line("data: ping\n")])
  {
    assert "data: ping\n" == [] + DataPrefix + " " + Keepalive + "\n";
    PayloadOf([], " ", Keepalive, "\n");
    TraceOne(Line("data: ping\n"), decode);
  }

  /** A line that is not a `data:` line, such as an event-stream comment, delivers nothing. */
  lemma CommentLineExample(decode: Decoder)
    ensures Delivered([Line(": comment\n")], decode) == []
  {
    var c := ": comment";
    assert ": comment\n" == [] + c + "\n";
    assert !HasPrefix(c, DataPrefix) by {
      assert c[0] != DataPrefix[0];
    }
    PayloadOfOther([], c, "\n");
    TraceOne(Line(": comment\n"), decode);
  }

  /** A payload that does not decode is skipped and the stream goes on. */
  lemma BadJsonLineExample(decode: Decoder)
    requires Unmarshal(decode, "{bad json") == None
    ensures Delivered([Line("data: {bad json\n")], decode) == [] && !Ends([Line("data: {bad json\n")])
  {
    assert "data: {bad json\n" == [] + DataPrefix + " " + "{bad json" + "\n";
    PayloadOf([], " ", "{bad json", "\n");
    TraceOne(Line("data: {bad json\n"), decode);
  }

  /** A prefix that has not failed does not change whether the stream fails. */
  lemma {:induction false} EndsAppend(a: seq<Read>, b: seq<Read>)
    requires !Ends(a)
    ensures Ends(a + b) == Ends(b)
  {
    if a == [] {
      assert a + b == b;
    } else {
      assert (a + b)[0] == a[0];
      assert (a + b)[1..] == a[1..] + b;
      EndsAppend(a[1..], b);
    }
  }

  /** Every read succeeded. */
  predicate NoError(input: seq<Read>) {
    forall k :: 0 <= k < |input| ==> input[k].Line?
  }

  lemma {:induction false} NoErrorNotEnds(input: seq<Read>)
    requires NoError(input)
    ensures !Ends(input)
  {
    if input != [] {
      NoErrorNotEnds(input[1..]);
    }
  }

  lemma NoErrorStep(input: seq<Read>, i: nat)
    requires i < |input| && NoError(input[..i]) && input[i].Line?
    ensures NoError(input[..i + 1])
  {
    forall k | 0 <= k < i
      ensures input[k].Line?
    {
      assert input[k] == input[..i][k];
    }
  }

  /** A line read without error after a prefix that has not failed adds that line's effects. */
  lemma TraceSnoc(a: seq<Read>, r: Read, decode: Decoder)
    requires !Ends(a) && r.Line?
    ensures Trace(a + [r], decode) == Trace(a, decode) + LineEffects(r.text, decode)
  {
    TraceAppend(a, [r], decode);
    TraceOne(r, decode);
  }

  /** One more line of the loop: its effects follow, and every read so far succeeded. */
  lemma TraceStepLine(input: seq<Read>, i: nat, decode: Decoder, start: seq<Effect>)
    requires i < |input| && NoError(input[..i]) && input[i].Line?
    ensures start + Trace(input[..i + 1], decode) == start + Trace(input[..i], decode) + LineEffects(input[i].text, decode)
    ensures NoError(input[..i + 1])
  {
    NoErrorNotEnds(input[..i]);
    assert input[..i + 1] == input[..i] + [input[i]];
    TraceSnoc(input[..i], input[i], decode);
    SeqAssoc(start, Trace(input[..i], decode), LineEffects(input[i].text, decode));
    NoErrorStep(input, i);
  }

  lemma SplitOne<T>(s: seq<T>, i: nat)
    requires i < |s|
    ensures s == s[..i] + ([s[i]] + s[i + 1..])
  {
  }

  /** A read error after a prefix that has not failed: the two closes end the trace, whatever follows. */
  lemma TraceError(a: seq<Read>, r: Read, rest: seq<Read>, decode: Decoder)
    requires !Ends(a) && r.ReadError?
    ensures Trace(a + ([r] + rest), decode) == Trace(a, decode) + [CloseBody, CloseChannel]
    ensures Ends(a + ([r] + rest))
  {
    TraceAppend(a, [r] + rest, decode);
    EndsAppend(a, [r] + rest);
    assert ([r] + rest)[0] == r;
    assert Outcomes([r] + rest, decode)[0] == Fails;
  }

  /** A read error in the loop: the two closes end the trace, whatever follows. */
  lemma TraceStepError(input: seq<Read>, i: nat, decode: Decoder, start: seq<Effect>)
    requires i < |input| && NoError(input[..i]) && input[i].ReadError?
    ensures start + Trace(input, decode) == start + Trace(input[..i], decode) + [CloseBody, CloseChannel]
    ensures Ends(input)
  {
    NoErrorNotEnds(input[..i]);
    SplitOne(input, i);
    TraceError(input[..i], input[i], input[i + 1..], decode);
    SeqAssoc(start, Trace(input[..i], decode), [CloseBody, CloseChannel]);
  }

  /** LineEffects along the steps of the loop body. */
  lemma LineEffectsSteps(text: string, decode: Decoder)
    ensures !HasPrefix(TrimSpace(text), DataPrefix) ==> LineEffects(text, decode) == []
    ensures HasPrefix(TrimSpace(text), DataPrefix) ==>
      var d := TrimSpace(TrimPrefix(TrimSpace(text), DataPrefix));
      LineEffects(text, decode) ==
        if d == [] || d == Keepalive || Unmarshal(decode, d).None? then [] else [Deliver(decode[d])]
  {
  }

  // ---------------------------------------------------------------------------
  // The reader

  /**
   * A running subscription: what the reader has done so far (`trace`), and
   * whether the response body and the delivery channel are still open.
   */
  class Subscription {
    var trace: seq<Effect>
    var bodyOpen: bool
    var channelOpen: bool

    /** A 200 reply: the body is open and `make(chan *RitaEvent)` gave an open channel. */
    constructor ()
      ensures trace == [] && bodyOpen && channelOpen
    {
      trace, bodyOpen, channelOpen := [], true, true;
    }

    /** `ch <- &event`: sending on a closed Go channel panics, so the channel must be open. */
    method Send(e: RitaEvent)
      requires channelOpen
      modifies this
      ensures trace == old(trace) + [Deliver(e)]
      ensures bodyOpen == old(bodyOpen) && channelOpen
    {
      trace := trace + [Deliver(e)];
    }

    /** `resp.Body.Close()`. */
    method CloseTheBody()
      requires bodyOpen
      modifies this
      ensures trace == old(trace) + [CloseBody]
      ensures !bodyOpen && channelOpen == old(channelOpen)
    {
      trace, bodyOpen := trace + [CloseBody], false;
    }

    /** `close(ch)`: closing a closed Go channel panics, so the channel must be open. */
    method CloseTheChannel()
      requires channelOpen
      modifies this
      ensures trace == old(trace) + [CloseChannel]
      ensures !channelOpen && bodyOpen == old(bodyOpen)
    {
      trace, channelOpen := trace + [CloseChannel], false;
    }

    /**
     * One line of the loop: trim it, keep it only if it starts with `data:`,
     * trim the rest, skip an empty payload or the keepalive, skip a payload
     * that does not decode, and otherwise send the event. Each skip is the
     * loop's `continue`.
     */
    method HandleLine(text: string, decode: Decoder)
      requires channelOpen
      modifies this
      ensures trace == old(trace) + LineEffects(text, decode)
      ensures bodyOpen == old(bodyOpen) && channelOpen
    {
      // A skipped line (each early return) leaves the trace as it was.
      LineEffectsSteps(text, decode);
      var strLine := TrimSpace(text);
      if !HasPrefix(strLine, DataPrefix) {
        return;
      }
      var eventData := TrimPrefix(strLine, DataPrefix);
      eventData := TrimSpace(eventData);
      if eventData == "" || eventData == Keepalive {
        return;
      }
      var event := Unmarshal(decode, eventData);
      if event.None? {
        return;
      }
      Send(event.value);
    }

    /**
     * The loop of the goroutine over the input the body yields. Its effects
     * are exactly Trace(input); the body and the channel are closed, once,
     * exactly when a read failed.
     */
    method Run(input: seq<Read>, decode: Decoder)
      requires bodyOpen && channelOpen
      modifies this
      ensures trace == old(trace) + Trace(input, decode)
      ensures bodyOpen == channelOpen == !Ends(input)
    {
      ghost var start := trace;
      var i := 0;
      while i < |input|
        invariant 0 <= i <= |input|
        invariant NoError(input[..i])
        invariant bodyOpen && channelOpen
        invariant trace == start + Trace(input[..i], decode)
      {
        match input[i]
        case ReadError(_) =>
          TraceStepError(input, i, decode, start);
          CloseTheBody();
          CloseTheChannel();
          return;
        case Line(text) =>
          TraceStepLine(input, i, decode, start);
          HandleLine(text, decode);
          i := i + 1;
      }
      assert input[..i] == input;
      NoErrorNotEnds(input);
    }
  }
}
