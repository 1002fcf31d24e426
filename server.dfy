/** The `/conversation` handler of server/index.js: payload validation, one server-sent event
    per streamed graph step, and the error event. Express, the graph run, `JSON.stringify` and
    `JSON.parse` are parameters; the response object is a class that records what is written. */
module Server {
  import opened Wrappers
  import opened Json
  import opened Messages
  import Chain

  const InvalidPayload := "Invalid payload. \"messages\" is required."
  const ProcessingFailed := "Failed to process conversation."

  /** V8's message for reading `content` of `undefined`, thrown when a step has no messages. */
  const NoLastMessage := "Cannot read properties of undefined (reading 'content')"

  /** The configuration every request runs the graph with. */
  datatype ThreadConfig = ThreadConfig(threadId: string, streamMode: string)
  const FixedConfig := ThreadConfig("conversation_1", "values")

  /** The headers set before anything else. */
  const SseHeaders: map<string, string> :=
    map["Content-Type" := "text/event-stream", "Cache-Control" := "no-cache", "Connection" := "keep-alive"]

  /** The body of the 400 answer. */
  function InvalidPayloadBody(): Json {
    JObject(map["error" := JString(InvalidPayload)])
  }

  /** `req.body.messages`, when it is an array. A missing value and a value that is not an
      array (including falsy ones) are both rejected. */
  function RequestMessages(body: Json): (r: Option<seq<Json>>)
    ensures r.Some? <==> Get(body, "messages").Some? && Get(body, "messages").value.JArray?
    ensures r.Some? ==> Get(body, "messages") == Some(JArray(r.value))
  {
    match Get(body, "messages")
    case Some(JArray(items)) => Some(items)
    case _ => None
  }

  // ---------------------------------------------------------------------------
  // One step's event

  /** The message's first raw provider tool call names the `retrieve` function. */
  predicate IsRetrieveCall(m: Message) {
    && m.AI? && m.rawToolCalls.Some? && |m.rawToolCalls.value| > 0
    && m.rawToolCalls.value[0].fn.Some? && m.rawToolCalls.value[0].fn.value.name == Chain.RetrieveName
  }

  /** The `filter` that picks the retrieve-calling messages. */
  function RetrieveMessages(ms: seq<Message>): (r: seq<Message>)
    ensures |r| <= |ms|
    ensures forall i :: 0 <= i < |r| ==> IsRetrieveCall(r[i])
    ensures forall m {:trigger m in r} :: m in r <==> m in ms && IsRetrieveCall(m)
    decreases |ms|
  {
    if |ms| == 0 then [] else (if IsRetrieveCall(ms[0]) then [ms[0]] else []) + RetrieveMessages(ms[1..])
  }

  /** The source entry of one retrieve-calling message: `{content: args.query, result: args.result}`
      where `args` parses from the call's `arguments`; `None` ("null", dropped) when the arguments are
      missing or do not parse, or parse to `null`, on which reading a property throws. */
  function SourceEntry(m: Message, parse: string -> Option<Json>): (r: Option<Json>)
    requires IsRetrieveCall(m)
    ensures r.Some? ==> r.value.JObject? && r.value.fields.Keys <= {"content", "result"}
    ensures var a := m.rawToolCalls.value[0].fn.value.arguments;
      r.None? <==> a.None? || parse(a.value).None? || parse(a.value) == Some(JNull)
    ensures var a := m.rawToolCalls.value[0].fn.value.arguments;
      r.Some? ==> Get(r.value, "content") == Get(parse(a.value).value, "query") &&
                  Get(r.value, "result") == Get(parse(a.value).value, "result")
  {
    var f := m.rawToolCalls.value[0].fn.value;
    if f.arguments.None? then None
    else
      match parse(f.arguments.value)
      case None => None
      case Some(JNull) => None
      case Some(args) => Some(JObject(Field("content", Get(args, "query")) + Field("result", Get(args, "result"))))
  }

  /** The `map` that turns each retrieve-calling message into its entry or null. */
  function Entries(ms: seq<Message>, parse: string -> Option<Json>): (r: seq<Option<Json>>)
    requires forall i :: 0 <= i < |ms| ==> IsRetrieveCall(ms[i])
    ensures |r| == |ms|
  {
    seq(|ms|, i requires 0 <= i < |ms| => SourceEntry(ms[i], parse))
  }

  /** `filter(Boolean)`: the entries that are not null. */
  function Present(os: seq<Option<Json>>): (r: seq<Json>)
    ensures |r| <= |os|
    ensures forall x {:trigger x in r} :: x in r <==> Some(x) in os
    decreases |os|
  {
    if |os| == 0 then [] else (if os[0].Some? then [os[0].value] else []) + Present(os[1..])
  }

  /** A step's `sources`. */
  function StepSources(ms: seq<Message>, parse: string -> Option<Json>): (r: seq<Json>)
    ensures |r| <= |RetrieveMessages(ms)| <= |ms|
    ensures forall x {:trigger x in r} :: x in r ==> exists m :: m in ms && IsRetrieveCall(m) && SourceEntry(m, parse) == Some(x)
  {
    var calls := RetrieveMessages(ms);
    var es := Entries(calls, parse);
    var r := Present(es);
    assert forall x :: x in r ==> exists m :: m in ms && IsRetrieveCall(m) && SourceEntry(m, parse) == Some(x) by {
      forall x | x in r ensures exists m :: m in ms && IsRetrieveCall(m) && SourceEntry(m, parse) == Some(x) {
        var j :| 0 <= j < |es| && es[j] == Some(x);
        assert calls[j] in calls;
      }
    }
    r
  }

  /** A single message contributes its entry when it calls `retrieve` first and its arguments are
      read, and nothing otherwise. */
  lemma StepSourcesSingle(m: Message, parse: string -> Option<Json>)
    ensures StepSources([m], parse) ==
      if IsRetrieveCall(m) && SourceEntry(m, parse).Some? then [SourceEntry(m, parse).value] else []
  {
    assert [m][1..] == [];
    assert [m][0] == m;
    assert RetrieveMessages([m][1..]) == [];
    var x := RetrieveMessages([m]);
    assert x == if IsRetrieveCall(m) then [m] else [];
    var e := Entries(x, parse);
    assert |e| == 1 ==> Present(e) == (if e[0].Some? then [e[0].value] else []) + Present(e[1..]);
  }

  /** Sources are gathered message by message, in order: with StepSourcesSingle this says there is
      one entry per retrieve-calling message whose arguments are read, and no other entry. */
  lemma StepSourcesAppend(a: seq<Message>, b: seq<Message>, parse: string -> Option<Json>)
    ensures StepSources(a + b, parse) == StepSources(a, parse) + StepSources(b, parse)
  {
    RetrieveMessagesAppend(a, b);
    var x, y := RetrieveMessages(a), RetrieveMessages(b);
    assert Entries(x + y, parse) == Entries(x, parse) + Entries(y, parse);
    PresentAppend(Entries(x, parse), Entries(y, parse));
  }

  lemma {:induction false} RetrieveMessagesAppend(a: seq<Message>, b: seq<Message>)
    ensures RetrieveMessages(a + b) == RetrieveMessages(a) + RetrieveMessages(b)
    decreases |a|
  {
    if |a| == 0 {
      assert a + b == b;
    } else {
      assert (a + b)[1..] == a[1..] + b;
      RetrieveMessagesAppend(a[1..], b);
    }
  }

  lemma {:induction false} PresentAppend(a: seq<Option<Json>>, b: seq<Option<Json>>)
    ensures Present(a + b) == Present(a) + Present(b)
    decreases |a|
  {
    if |a| == 0 {
      assert a + b == b;
    } else {
      var head := if a[0].Some? then [a[0].value] else [];
      assert (a + b)[0] == a[0];
      assert (a + b)[1..] == a[1..] + b;
      assert Present(a + b) == head + Present(a[1..] + b);
      PresentAppend(a[1..], b);
      assert Present(a) == head + Present(a[1..]);
    }
  }

  /** `lastMessage.type || 'message'`. */
  function TypeName(t: Option<string>): string {
    if t.Some? && t.value != "" then t.value else "message"
  }

  function EventJson(content: string, kind: string, sources: seq<Json>): Json {
    JObject(map["content" := JString(content), "type" := JString(kind), "sources" := JArray(sources)])
  }

  /** The event of one step: the content and type of its last message and its sources. A step with
      no messages throws when the last message's `content` is read. `typeOf` is the library's
      `type` property of a message. */
  function StepEvent(ms: seq<Message>, parse: string -> Option<Json>, typeOf: Message -> Option<string>): (r: Result<Json>)
    ensures r.Failure? <==> |ms| == 0
    ensures r.Failure? ==> r.message == NoLastMessage
  {
    if |ms| == 0 then Failure(NoLastMessage)
    else
      var last := ms[|ms| - 1];
      Success(EventJson(last.content, TypeName(typeOf(last)), StepSources(ms, parse)))
  }

  /** The fields of a step's event: `content` is the last message's content, `type` is its type or
      `message` when that is missing or empty, `sources` are the step's sources, and there is no
      `error`. */
  lemma StepEventFields(ms: seq<Message>, parse: string -> Option<Json>, typeOf: Message -> Option<string>)
    requires |ms| > 0
    ensures var e := StepEvent(ms, parse, typeOf).value;
      && Get(e, "content") == Some(JString(ms[|ms| - 1].content))
      && Get(e, "type") == Some(JString(if typeOf(ms[|ms| - 1]).Some? && typeOf(ms[|ms| - 1]).value != "" then typeOf(ms[|ms| - 1]).value else "message"))
      && Get(e, "sources") == Some(JArray(StepSources(ms, parse)))
      && Get(e, "error").None?
  {
  }

  /** The event written by the `catch` block. */
  function ErrorEvent(details: string): (j: Json)
    ensures Get(j, "content").None? && Get(j, "error") == Some(JString(ProcessingFailed))
    ensures Get(j, "details") == Some(JString(details))
  {
    JObject(map["error" := JString(ProcessingFailed), "details" := JString(details)])
  }

  /** One server-sent event. */
  function Frame(json: string): string {
    "data: " + json + "\n\n"
  }

  // ---------------------------------------------------------------------------
  // The whole stream

  /** What the graph's `values` stream delivers: the steps before it stops, and the error it
      throws at that point, if any. */
  datatype StreamOutcome = StreamOutcome(steps: seq<seq<Message>>, error: Option<string>)

  /** The index of the first step without messages, or the number of steps: how far the
      `for await` loop gets before reading a last message throws. */
  function FirstEmpty(steps: seq<seq<Message>>): (n: nat)
    ensures n <= |steps| && (n < |steps| ==> |steps[n]| == 0)
    ensures forall i :: 0 <= i < n ==> |steps[i]| > 0
    decreases |steps|
  {
    if |steps| == 0 then 0 else if |steps[0]| == 0 then 0 else 1 + FirstEmpty(steps[1..])
  }

  /** The events that end the stream after the first `n` steps: the TypeError of an empty step,
      or the stream's own error once every step is read. */
  function TailEvents(steps: seq<seq<Message>>, n: nat, error: Option<string>): (r: seq<Json>)
    ensures |r| <= 1
    ensures |r| == 1 <==> n < |steps| || error.Some?
  {
    if n < |steps| then [ErrorEvent(NoLastMessage)] else if error.Some? then [ErrorEvent(error.value)] else []
  }

  /** The events the handler writes for `steps` followed by `error`: one per step, until a step
      without messages or the stream's error, which ends the stream with one error event. */
  function Events(steps: seq<seq<Message>>, error: Option<string>, parse: string -> Option<Json>,
                  typeOf: Message -> Option<string>): (r: seq<Json>)
    ensures |r| <= |steps| + 1
    ensures forall i {:trigger Get(r[i], "error")} :: 0 <= i < |r| - 1 ==> Get(r[i], "error").None?
  {
    var n := FirstEmpty(steps);
    seq(n, i requires 0 <= i < n => StepEvent(steps[i], parse, typeOf).value) + TailEvents(steps, n, error)
  }

  /** The frames of a list of events. */
  function Framed(events: seq<Json>, stringify: Json -> string): (r: seq<string>)
    ensures |r| == |events| && forall i :: 0 <= i < |events| ==> r[i] == Frame(stringify(events[i]))
  {
    seq(|events|, i requires 0 <= i < |events| => Frame(stringify(events[i])))
  }

  /** The frames of consecutive runs of events are consecutive. */
  lemma FramedAppend(a: seq<Json>, b: seq<Json>, stringify: Json -> string)
    ensures Framed(a + b, stringify) == Framed(a, stringify) + Framed(b, stringify)
  {
    var l, r := Framed(a + b, stringify), Framed(a, stringify) + Framed(b, stringify);
    forall i | 0 <= i < |l| ensures l[i] == r[i] {
      if i < |a| { assert (a + b)[i] == a[i]; } else { assert (a + b)[i] == b[i - |a|]; }
    }
  }

  /** Only one index has the properties of FirstEmpty: every step before it has messages, and
      it is the end of the steps or a step without messages. */
  lemma {:induction false} FirstEmptyUnique(steps: seq<seq<Message>>, k: nat)
    requires k <= |steps| && (k < |steps| ==> |steps[k]| == 0)
    requires forall i :: 0 <= i < k ==> |steps[i]| > 0
    ensures FirstEmpty(steps) == k
    decreases k
  {
    if k > 0 {
      assert |steps[0]| > 0;
      assert forall i :: 0 <= i < k - 1 ==> steps[1..][i] == steps[i + 1];
      FirstEmptyUnique(steps[1..], k - 1);
    }
  }

  /** The shape of the events: one event per step up to the first step without messages, each that
      step's own event; then, when such a step exists or the stream failed, exactly one error event
      carrying the TypeError's message or the stream's error, and nothing after it. */
  lemma EventsShape(steps: seq<seq<Message>>, error: Option<string>, parse: string -> Option<Json>,
                    typeOf: Message -> Option<string>)
    ensures var ev, n := Events(steps, error, parse, typeOf), FirstEmpty(steps);
      && |ev| == n + (if n < |steps| || error.Some? then 1 else 0)
      && (forall i :: 0 <= i < n ==> StepEvent(steps[i], parse, typeOf) == Success(ev[i]))
      && (n < |steps| ==> ev[n] == ErrorEvent(NoLastMessage))
      && (n == |steps| && error.Some? ==> ev[n] == ErrorEvent(error.value))
  {
  }

  /** A step without messages, after steps that all have messages, ends the events: the steps
      before it give their events, then comes the TypeError's error event, and the later steps and
      the stream's own error are never reached. */
  lemma EventsAtEmptyStep(steps: seq<seq<Message>>, k: nat, error: Option<string>, parse: string -> Option<Json>,
                          typeOf: Message -> Option<string>)
    requires k < |steps| && |steps[k]| == 0
    requires forall i :: 0 <= i < k ==> |steps[i]| > 0
    ensures Events(steps, error, parse, typeOf) ==
      Events(steps[..k], None, parse, typeOf) + [ErrorEvent(NoLastMessage)]
  {
    FirstEmptyUnique(steps, k);
    FirstEmptyUnique(steps[..k], k);
  }

  /** After steps that all have messages, a step with messages adds exactly its own event. */
  lemma EventsAtStep(steps: seq<seq<Message>>, m: seq<Message>, parse: string -> Option<Json>,
                     typeOf: Message -> Option<string>)
    requires forall i :: 0 <= i < |steps| ==> |steps[i]| > 0
    requires |m| > 0
    ensures Events(steps + [m], None, parse, typeOf) ==
      Events(steps, None, parse, typeOf) + [StepEvent(m, parse, typeOf).value]
  {
    FirstEmptyUnique(steps, |steps|);
    FirstEmptyUnique(steps + [m], |steps| + 1);
  }

  /** After steps that all have messages, a failing stream adds exactly one error event, with the
      error's message as its details; a stream that does not fail adds nothing. */
  lemma EventsAtEnd(steps: seq<seq<Message>>, error: Option<string>, parse: string -> Option<Json>,
                    typeOf: Message -> Option<string>)
    requires forall i :: 0 <= i < |steps| ==> |steps[i]| > 0
    ensures Events(steps, error, parse, typeOf) ==
      Events(steps, None, parse, typeOf) + (if error.Some? then [ErrorEvent(error.value)] else [])
  {
    FirstEmptyUnique(steps, |steps|);
  }

  /** What the response ends up holding for a request. */
  function Written(body: Json, graph: (seq<Json>, ThreadConfig) -> StreamOutcome, stringify: Json -> string,
                   parse: string -> Option<Json>, typeOf: Message -> Option<string>): seq<string>
  {
    match RequestMessages(body)
    case None => [stringify(InvalidPayloadBody())]
    case Some(ms) =>
      var o := graph(ms, FixedConfig);
      Framed(Events(o.steps, o.error, parse, typeOf), stringify)
  }

  /** An Express response as far as the handler uses it. */
  class Response {
    var headers: map<string, string>
    var statusCode: int
    var written: seq<string>
    var ended: bool

    constructor ()
      ensures headers == map[] && statusCode == 200 && written == [] && !ended
    {
      headers, statusCode, written, ended := map[], 200, [], false;
    }

    /** `res.set(h)`. */
    method Set(h: map<string, string>)
      modifies this
      ensures headers == old(headers) + h
      ensures statusCode == old(statusCode) && written == old(written) && ended == old(ended)
    {
      headers := headers + h;
    }

    /** `res.write(chunk)`. */
    method Write(chunk: string)
      requires !ended
      modifies this
      ensures written == old(written) + [chunk]
      ensures headers == old(headers) && statusCode == old(statusCode) && !ended
    {
      written := written + [chunk];
    }

    /** `res.end()`. */
    method End()
      requires !ended
      modifies this
      ensures ended
      ensures headers == old(headers) && statusCode == old(statusCode) && written == old(written)
    {
      ended := true;
    }

    /** `res.status(code).json(...)`, given the stringified body. */
    method SendJson(code: int, text: string)
      requires !ended
      modifies this
      ensures statusCode == code && written == old(written) + [text] && ended
      ensures headers == old(headers)
    {
      statusCode := code;
      written := written + [text];
      ended := true;
    }
  }

  /** The `for await` loop and what follows it: one frame per step while the steps have
      messages; the first step without one throws, and the `catch` block, like a failing stream,
      writes one error frame; the response is ended on every path. */
  method StreamSteps(steps: seq<seq<Message>>, error: Option<string>, stringify: Json -> string,
                     parse: string -> Option<Json>, typeOf: Message -> Option<string>, res: Response)
    requires !res.ended
    modifies res
    ensures res.ended && res.headers == old(res.headers) && res.statusCode == old(res.statusCode)
    ensures res.written == old(res.written) + Framed(Events(steps, error, parse, typeOf), stringify)
  {
    ghost var frames := Framed(Events(steps, error, parse, typeOf), stringify);
    FramesLayout(steps, error, stringify, parse, typeOf);
    var i := WriteStepFrames(steps, stringify, parse, typeOf, res, frames);
    if i < |steps| || error.Some? {
      WriteFrame(res, old(res.written), frames, i, Frame(stringify(if i < |steps| then ErrorEvent(NoLastMessage) else ErrorEvent(error.value))));
      assert frames[..i + 1] == frames;
    } else {
      assert frames[..i] == frames;
    }
    res.End();
  }

  /** The frames of a stream: one per step up to the first empty one, then the error frame if
      there is one. */
  lemma FramesLayout(steps: seq<seq<Message>>, error: Option<string>, stringify: Json -> string,
                     parse: string -> Option<Json>, typeOf: Message -> Option<string>)
    ensures var frames, n := Framed(Events(steps, error, parse, typeOf), stringify), FirstEmpty(steps);
      && |frames| == n + (if n < |steps| || error.Some? then 1 else 0)
      && (forall i :: 0 <= i < n ==> frames[i] == Frame(stringify(StepEvent(steps[i], parse, typeOf).value)))
      && (n < |frames| ==> frames[n] == Frame(stringify(if n < |steps| then ErrorEvent(NoLastMessage) else ErrorEvent(error.value))))
  {
    EventsShape(steps, error, parse, typeOf);
  }

  /** The `for await` loop proper: it writes the frames of the steps before the first empty one
      and stops there. */
  method WriteStepFrames(steps: seq<seq<Message>>, stringify: Json -> string, parse: string -> Option<Json>,
                         typeOf: Message -> Option<string>, res: Response, ghost frames: seq<string>)
    returns (i: nat)
    requires !res.ended
    requires FirstEmpty(steps) <= |frames|
    requires forall k :: 0 <= k < FirstEmpty(steps) ==> frames[k] == Frame(stringify(StepEvent(steps[k], parse, typeOf).value))
    modifies res
    ensures i == FirstEmpty(steps)
    ensures !res.ended && res.headers == old(res.headers) && res.statusCode == old(res.statusCode)
    ensures res.written == old(res.written) + frames[..i]
  {
    ghost var n := FirstEmpty(steps);
    i := 0;
    while i < |steps| && |steps[i]| > 0
      invariant 0 <= i <= n
      invariant !res.ended && res.headers == old(res.headers) && res.statusCode == old(res.statusCode)
      invariant res.written == old(res.written) + frames[..i]
    {
      var event := StepEvent(steps[i], parse, typeOf).value;
      assert frames[i] == Frame(stringify(event));
      WriteFrame(res, old(res.written), frames, i, Frame(stringify(event)));
      i := i + 1;
    }
  }

  /** `res.write` of frame `i` of `frames` after the frames before it. */
  method WriteFrame(res: Response, ghost before: seq<string>, ghost frames: seq<string>, i: nat, frame: string)
    requires !res.ended && i < |frames| && frames[i] == frame
    requires res.written == before + frames[..i]
    modifies res
    ensures !res.ended && res.headers == old(res.headers) && res.statusCode == old(res.statusCode)
    ensures res.written == before + frames[..i + 1]
  {
    res.Write(frame);
    assert frames[..i + 1] == frames[..i] + [frame];
  }

  /** The `/conversation` handler. It returns the configuration it ran the graph with, or `None`
      when it answered 400 without running the graph. `body` is what `express.json()` produced, an
      object or an array. */
  method HandleConversation(body: Json, graph: (seq<Json>, ThreadConfig) -> StreamOutcome,
                            stringify: Json -> string, parse: string -> Option<Json>,
                            typeOf: Message -> Option<string>, res: Response)
    returns (config: Option<ThreadConfig>)
    requires body.JObject? || body.JArray?
    requires !res.ended
    modifies res
    ensures res.ended
    ensures res.headers == old(res.headers) + SseHeaders
    ensures config.None? <==> RequestMessages(body).None?
    ensures config.Some? ==> config.value == FixedConfig && res.statusCode == old(res.statusCode)
    ensures config.None? ==> res.statusCode == 400
    ensures res.written == old(res.written) + Written(body, graph, stringify, parse, typeOf)
  {
    res.Set(SseHeaders);
    var messages := RequestMessages(body);
    if messages.None? {
      res.SendJson(400, stringify(InvalidPayloadBody()));
      return None;
    }
    config := Some(FixedConfig);
    var outcome := graph(messages.value, FixedConfig);
    StreamSteps(outcome.steps, outcome.error, stringify, parse, typeOf, res);
  }
}
