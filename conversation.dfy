/** The server and the client together: the client's request passes the server's validation,
    the client reads back exactly the events the server framed, and what the panel then shows
    for one turn of the graph. */
module Conversation {
  import opened Wrappers
  import opened Strings
  import opened Json
  import opened Messages
  import Chain
  import Server
  import ChatPanel

  /** Every request the panel sends is accepted: its `messages` is an array with one entry per
      panel message. */
  lemma RequestAccepted(ms: seq<ChatPanel.ChatMessage>)
    ensures Server.RequestMessages(ChatPanel.RequestBody(ms)) == Some(ChatPanel.RequestEntries(ms))
  {
  }

  /** What the framing relies on from `JSON.stringify` and `JSON.parse` (ASSUMED, not modelled):
      the text of a value is one line that starts with a non-blank character, and it parses back
      to the value. */
  ghost predicate Codec(stringify: Json -> string, parse: string -> Option<Json>) {
    forall j :: |stringify(j)| > 0 && !IsWhitespace(stringify(j)[0]) && !HasChar(stringify(j), '\n') &&
      parse(stringify(j)) == Some(j)
  }

  /** The text that arrives when the frames are read in one piece. */
  function Concat(parts: seq<string>): string
    decreases |parts|
  {
    if |parts| == 0 then "" else parts[0] + Concat(parts[1..])
  }

  function Flatten(groups: seq<seq<Json>>): seq<Json>
    decreases |groups|
  {
    if |groups| == 0 then [] else Flatten(groups[..|groups| - 1]) + groups[|groups| - 1]
  }

  /** The client's action for each event, when it receives the event itself. */
  function EventActions(events: seq<Json>): (r: seq<ChatPanel.Action>)
    ensures |r| == |events|
  {
    seq(|events|, i requires 0 <= i < |events| => ChatPanel.Classify(Some(events[i])))
  }

  /** The frame of a one-line value without leading blanks gives back that value's text. */
  lemma PayloadOfFrame(json: string)
    requires |json| > 0 && !IsWhitespace(json[0])
    ensures ChatPanel.Payload("data: " + json) == json
  {
    var e := "data: " + json;
    assert e[..5] == ChatPanel.DataPrefix;
    assert e[5..] == " " + json;
    assert (" " + json)[1..] == json;
  }

  /** The `data:` pieces of a run of frames are the frames without their separators. */
  lemma {:induction false} EventsOfFrames(events: seq<Json>, stringify: Json -> string, parse: string -> Option<Json>)
    requires Codec(stringify, parse)
    ensures ChatPanel.EventsOf(Concat(Server.Framed(events, stringify))) ==
      seq(|events|, i requires 0 <= i < |events| => "data: " + stringify(events[i]))
    decreases |events|
  {
    var want := seq(|events|, i requires 0 <= i < |events| => "data: " + stringify(events[i]));
    if |events| == 0 {
      assert Concat(Server.Framed(events, stringify)) == "";
      assert Find("", ChatPanel.FrameSeparator) == None;
      assert ChatPanel.DataFrames([""]) == [];
    } else {
      var piece := "data: " + stringify(events[0]);
      var rest := Concat(Server.Framed(events[1..], stringify));
      FramesCons(events, stringify);
      FrameHasNoNewline(stringify(events[0]));
      EventsOfCons(piece, rest);
      EventsOfFrames(events[1..], stringify, parse);
      assert want == [piece] + seq(|events| - 1, i requires 0 <= i < |events| - 1 => "data: " + stringify(events[1..][i]));
    }
  }

  /** The frames of a non-empty run of events are its first event's frame and then the others'. */
  lemma FramesCons(events: seq<Json>, stringify: Json -> string)
    requires |events| > 0
    ensures Concat(Server.Framed(events, stringify)) ==
      ("data: " + stringify(events[0])) + ChatPanel.FrameSeparator + Concat(Server.Framed(events[1..], stringify))
  {
    var f := Server.Framed(events, stringify);
    assert f[1..] == Server.Framed(events[1..], stringify);
  }

  /** A frame's text before its separator has no newline when the JSON text has none. */
  lemma FrameHasNoNewline(json: string)
    requires !HasChar(json, '\n')
    ensures !HasChar("data: " + json, '\n')
  {
    var piece := "data: " + json;
    forall i | 0 <= i < |piece| ensures piece[i] != '\n' {
      if i >= 6 { assert piece[i] == json[i - 6]; }
    }
  }

  /** A `data:` piece without a newline, followed by the separator, is the first piece kept. */
  lemma EventsOfCons(piece: string, rest: string)
    requires StartsWith(piece, ChatPanel.DataPrefix) && !HasChar(piece, '\n')
    ensures ChatPanel.EventsOf(piece + ChatPanel.FrameSeparator + rest) == [piece] + ChatPanel.EventsOf(rest)
  {
    SplitAfterPiece(piece, ChatPanel.FrameSeparator, rest);
    var pieces := [piece] + Split(rest, ChatPanel.FrameSeparator);
    assert pieces[0] == piece && pieces[1..] == Split(rest, ChatPanel.FrameSeparator);
  }

  /** A chunk holding whole frames gives the client one action per event, in order. */
  lemma ChunkOfFrames(events: seq<Json>, stringify: Json -> string, parse: string -> Option<Json>)
    requires Codec(stringify, parse)
    ensures ChatPanel.ChunkActions(Concat(Server.Framed(events, stringify)), parse) == EventActions(events)
  {
    var chunk := Concat(Server.Framed(events, stringify));
    EventsOfFrames(events, stringify, parse);
    var es := ChatPanel.EventsOf(chunk);
    forall i | 0 <= i < |events|
      ensures ChatPanel.ChunkActions(chunk, parse)[i] == EventActions(events)[i]
    {
      PayloadOfFrame(stringify(events[i]));
      assert es[i] == "data: " + stringify(events[i]);
    }
  }

  /** The chunks the client reads when the written frames arrive in groups, each group in one
      chunk. */
  function Chunks(groups: seq<seq<Json>>, stringify: Json -> string): (r: seq<string>)
    ensures |r| == |groups|
    decreases |groups|
  {
    if |groups| == 0 then []
    else Chunks(groups[..|groups| - 1], stringify) + [Concat(Server.Framed(groups[|groups| - 1], stringify))]
  }

  /** Whatever way the written frames are cut into chunks, as long as no frame is cut in two,
      the client acts on exactly the server's events, in order. */
  lemma {:induction false} WholeFrameChunks(groups: seq<seq<Json>>, stringify: Json -> string, parse: string -> Option<Json>)
    requires Codec(stringify, parse)
    ensures ChatPanel.StreamActions(Chunks(groups, stringify), parse) == EventActions(Flatten(groups))
    decreases |groups|
  {
    if |groups| > 0 {
      var n := |groups| - 1;
      WholeFrameChunks(groups[..n], stringify, parse);
      ChunkOfFrames(groups[n], stringify, parse);
      LastChunk(groups, stringify, parse);
      EventActionsAppend(Flatten(groups[..n]), groups[n]);
    }
  }

  /** The last group's chunk is read after the chunks of the groups before it. */
  lemma LastChunk(groups: seq<seq<Json>>, stringify: Json -> string, parse: string -> Option<Json>)
    requires |groups| > 0
    ensures var n := |groups| - 1;
      && ChatPanel.StreamActions(Chunks(groups, stringify), parse) ==
           ChatPanel.StreamActions(Chunks(groups[..n], stringify), parse) +
           ChatPanel.ChunkActions(Concat(Server.Framed(groups[n], stringify)), parse)
      && Flatten(groups) == Flatten(groups[..n]) + groups[n]
  {
    var n := |groups| - 1;
    var chunks := Chunks(groups, stringify);
    assert chunks[..n] == Chunks(groups[..n], stringify);
  }

  /** The client's actions for consecutive runs of events are consecutive. */
  lemma EventActionsAppend(a: seq<Json>, b: seq<Json>)
    ensures EventActions(a + b) == EventActions(a) + EventActions(b)
  {
    var l, r := EventActions(a + b), EventActions(a) + EventActions(b);
    forall i | 0 <= i < |l| ensures l[i] == r[i] {
      if i < |a| { assert (a + b)[i] == a[i]; } else { assert (a + b)[i] == b[i - |a|]; }
    }
  }

  /** When no step is empty and the stream does not fail, there is one event per step, and the
      last is the last step's own event. */
  lemma LastEventOfFullRun(steps: seq<seq<Message>>, parse: string -> Option<Json>, typeOf: Message -> Option<string>)
    requires |steps| > 0
    requires forall i :: 0 <= i < |steps| ==> |steps[i]| > 0
    ensures var ev := Server.Events(steps, None, parse, typeOf);
      |ev| == |steps| && ev[|ev| - 1] == Server.StepEvent(steps[|steps| - 1], parse, typeOf).value
  {
  }

  // ---------------------------------------------------------------------------
  // What the panel makes of the server's events

  /** What the client does with a message's content once it arrives as an event's `content`: the
      classification of an event holding that content and nothing else. */
  function ContentAction(c: string): (a: ChatPanel.Action)
    ensures a.Skip? <==> c == ""
    ensures a.AddSource? <==> c != "" && ChatPanel.IsSourceContent(c)
    ensures a.SetReply? ==> a.text == c
  {
    ChatPanel.Classify(Some(JObject(map["content" := JString(c)])))
  }

  /** An error event never touches the reply or the sources. */
  lemma ErrorEventIgnored(details: string)
    ensures ChatPanel.Classify(Some(Server.ErrorEvent(details))) == ChatPanel.Skip
  {
  }

  /** A step's event acts by its last message's content: an empty content is skipped, tool content
      from the rate database becomes a source, anything else becomes the pending reply. */
  lemma StepEventAction(ms: seq<Message>, parse: string -> Option<Json>, typeOf: Message -> Option<string>)
    requires |ms| > 0
    ensures ChatPanel.Classify(Some(Server.StepEvent(ms, parse, typeOf).value)) == ContentAction(ms[|ms| - 1].content)
  {
    Server.StepEventFields(ms, parse, typeOf);
  }

  /** The retrieval tool's content is classified as a source when the first retrieved document
      comes from the rate database, whose documents all carry the source `URDB`. */
  lemma RetrievedContentIsSource(docs: seq<Document>)
    requires |docs| > 0 && docs[0].metadata.source == "URDB"
    ensures ChatPanel.IsSourceContent(Chain.Serialize(docs))
  {
    Chain.SerializeStartsWithFirst(docs);
  }

  /** One whole turn read without failure: the panel's reply is the final model answer
      whenever that answer is non-empty and is not itself shaped like database tool content. */
  lemma TurnReply(prior: seq<Message>, input: seq<Message>, env: Chain.Env, groups: seq<seq<Json>>,
                  stringify: Json -> string, parse: string -> Option<Json>, typeOf: Message -> Option<string>)
    requires |input| > 0
    requires Codec(stringify, parse)
    requires Flatten(groups) == Server.Events(Chain.Stream(prior, input, env), None, parse, typeOf)
    ensures var st := Chain.Stream(prior, input, env);
      var answer := env.llm(Chain.Prompt(st[2])).content;
      answer != "" && !ChatPanel.IsSourceContent(answer) ==>
        ChatPanel.LastReply(ChatPanel.StreamActions(Chunks(groups, stringify), parse)) == Some(answer)
  {
    Chain.StreamUnfolds(prior, input, env);
    var st := Chain.Stream(prior, input, env);
    var answer := env.llm(Chain.Prompt(st[2])).content;
    assert |st| == 4;
    assert |st[0]| > 0 && |st[1]| > |st[0]| && |st[2]| >= |st[1]| && |st[3]| > |st[2]|;
    assert st[3][|st[3]| - 1] == AsMessage(env.llm(Chain.Prompt(st[2])));
    LastEventOfFullRun(st, parse, typeOf);
    WholeFrameChunks(groups, stringify, parse);
    var evs := Server.Events(st, None, parse, typeOf);
    StepEventAction(st[3], parse, typeOf);
    var acts := EventActions(evs);
    assert acts[3] == ContentAction(answer);
  }

  /** A run that fails right after the input step: the only content that reaches the panel is the
      step's last message, the user's own question, which the panel then shows as the assistant's
      reply. */
  lemma FailureAfterInputEchoes(s0: seq<Message>, error: string, parse: string -> Option<Json>, typeOf: Message -> Option<string>)
    requires |s0| > 0
    requires s0[|s0| - 1].content != "" && !ChatPanel.IsSourceContent(s0[|s0| - 1].content)
    ensures ChatPanel.LastReply(EventActions(Server.Events([s0], Some(error), parse, typeOf))) == Some(s0[|s0| - 1].content)
  {
    var e := Server.StepEvent(s0, parse, typeOf).value;
    EventsOfFailedFirstStep(s0, error, parse, typeOf);
    StepEventAction(s0, parse, typeOf);
    ErrorEventIgnored(error);
    ReplyThenSkip(EventActions([e, Server.ErrorEvent(error)]));
  }

  /** A single step with messages followed by a failure gives that step's event and the error event. */
  lemma EventsOfFailedFirstStep(s0: seq<Message>, error: string, parse: string -> Option<Json>, typeOf: Message -> Option<string>)
    requires |s0| > 0
    ensures Server.Events([s0], Some(error), parse, typeOf) ==
      [Server.StepEvent(s0, parse, typeOf).value, Server.ErrorEvent(error)]
  {
    Server.EventsAtEnd([s0], Some(error), parse, typeOf);
    assert [] + [s0] == [s0];
    Server.EventsAtStep([], s0, parse, typeOf);
    Server.FirstEmptyUnique([], 0);
  }

  /** A reply followed by a skipped frame is the reply that wins. */
  lemma ReplyThenSkip(acts: seq<ChatPanel.Action>)
    requires |acts| == 2 && acts[0].SetReply? && acts[1].Skip?
    ensures ChatPanel.LastReply(acts) == Some(acts[0].text)
  {
    assert acts[..1] == [acts[0]];
  }
}
