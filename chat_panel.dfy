/** The chat panel's `handleSend` (client/src/components/ChatPanel.js): the blank-input guard,
    the request body, and the consumption of the server-sent event stream into an assistant
    message and its sources. React's `messages`/`loading` state is the class `ChatPanel`; the
    `currentSources` array, which the assistant message shares, is the class `SourceList`.
    `fetch`, the stream reader and `JSON.parse` are parameters. */
module ChatPanel {
  import opened Wrappers
  import opened Strings
  import opened Json

  // ---------------------------------------------------------------------------
  // Messages and the request

  datatype Sender = User | Assistant

  /** One collected source: the tool content and the URI found in it. */
  datatype Source = Source(content: string, uri: string)

  /** A mutable array of sources, shared by reference. */
  class SourceList {
    var items: seq<Source>

    constructor ()
      ensures items == []
    {
      items := [];
    }

    /** `push`. */
    method Push(s: Source)
      modifies this
      ensures items == old(items) + [s]
    {
      items := items + [s];
    }
  }

  /** A message of the panel: its text, its sender and, for an assistant message, the
      (shared) array of its sources. */
  datatype ChatMessage = ChatMessage(text: string, sender: Sender, sources: Option<SourceList>)

  /** The role a message is sent with. */
  function Role(s: Sender): (r: string)
    ensures r == "user" <==> s == User
    ensures r == "user" || r == "assistant"
  {
    if s == User then "user" else "assistant"
  }

  function RequestEntry(m: ChatMessage): Json {
    JObject(map["role" := JString(Role(m.sender)), "content" := JString(m.text)])
  }

  /** The request's `messages`: one `{role, content}` object per message, in order. */
  function RequestEntries(ms: seq<ChatMessage>): (r: seq<Json>)
    ensures |r| == |ms|
    ensures forall i :: 0 <= i < |ms| ==>
      Get(r[i], "role") == Some(JString(Role(ms[i].sender))) && Get(r[i], "content") == Some(JString(ms[i].text))
  {
    seq(|ms|, i requires 0 <= i < |ms| => RequestEntry(ms[i]))
  }

  /** The JSON body posted to `/conversation`. */
  function RequestBody(ms: seq<ChatMessage>): (j: Json)
    ensures Get(j, "messages") == Some(JArray(RequestEntries(ms)))
  {
    JObject(map["messages" := JArray(RequestEntries(ms))])
  }

  // ---------------------------------------------------------------------------
  // Frames of a chunk

  const DataPrefix := "data:"
  const FrameSeparator := "\n\n"
  const SourceMarker := "Source: URDB"
  const UriMarker := "URI: "

  /** The `filter` keeping the pieces that start with `data:`. */
  function DataFrames(pieces: seq<string>): (r: seq<string>)
    ensures |r| <= |pieces|
    ensures forall i :: 0 <= i < |r| ==> StartsWith(r[i], DataPrefix)
    ensures forall x {:trigger x in r} :: x in r <==> x in pieces && StartsWith(x, DataPrefix)
    decreases |pieces|
  {
    if |pieces| == 0 then []
    else (if StartsWith(pieces[0], DataPrefix) then [pieces[0]] else []) + DataFrames(pieces[1..])
  }

  /** Filtering distributes over concatenation, so no frame is dropped or reordered. */
  lemma {:induction false} DataFramesAppend(a: seq<string>, b: seq<string>)
    ensures DataFrames(a + b) == DataFrames(a) + DataFrames(b)
    decreases |a|
  {
    if |a| > 0 {
      assert (a + b)[0] == a[0] && (a + b)[1..] == a[1..] + b;
      DataFramesAppend(a[1..], b);
    } else {
      assert a + b == b;
    }
  }

  /** `chunk.split('\n\n').filter(event => event.startsWith('data:'))`. */
  function EventsOf(chunk: string): (r: seq<string>)
    ensures forall i :: 0 <= i < |r| ==> StartsWith(r[i], DataPrefix)
    ensures forall x {:trigger x in r} :: x in r <==> x in Split(chunk, FrameSeparator) && StartsWith(x, DataPrefix)
  {
    DataFrames(Split(chunk, FrameSeparator))
  }

  /** `event.replace(/^data:\s*\/, '')` on a frame that starts with `data:`. */
  function Payload(e: string): (r: string)
    requires StartsWith(e, DataPrefix)
    ensures |r| <= |e| - |DataPrefix| && e == e[..|e| - |r|] + r
    ensures forall i :: |DataPrefix| <= i < |e| - |r| ==> IsWhitespace(e[i])
    ensures |r| > 0 ==> !IsWhitespace(r[0])
  {
    TrimStart(e[|DataPrefix|..])
  }

  /** `parsed.content && typeof parsed.content === 'string'`: the non-empty string `content` of the
      parsed value. A failed parse, `null` (reading its property throws, and the frame is skipped
      by the same `catch`), a value that is not an object, a missing key and a non-string all give
      `None`. */
  function ContentOf(parsed: Option<Json>): (r: Option<string>)
    ensures r.Some? <==>
      parsed.Some? && Get(parsed.value, "content").Some? && Get(parsed.value, "content").value.JString? &&
      Get(parsed.value, "content").value.s != ""
    ensures r.Some? ==> Get(parsed.value, "content") == Some(JString(r.value))
  {
    if parsed.None? then None
    else
      match Get(parsed.value, "content")
      case Some(JString(s)) => if s != "" then Some(s) else None
      case _ => None
  }

  /** Tool content from the rate database, as the serialiser writes it for a document whose
      source is `URDB`. */
  predicate IsSourceContent(s: string) {
    StartsWith(s, SourceMarker)
  }

  // ---------------------------------------------------------------------------
  // The URI of a source: `content.match(/URI: (.*?)(?:\n|$)/)?.[1] || ''`

  /** Where the lazy group `(.*?)` that starts at `q` can stop: at the first line terminator, which
      `.` does not match, or at the end of the text. */
  function LineEnd(s: string, q: nat): (k: nat)
    requires q <= |s|
    ensures q <= k <= |s|
    ensures k < |s| ==> IsLineTerminator(s[k])
    ensures forall j :: q <= j < k ==> !IsLineTerminator(s[j])
    decreases |s| - q
  {
    if q == |s| || IsLineTerminator(s[q]) then q else LineEnd(s, q + 1)
  }

  /** The regular expression's match attempted at `p`, `p + 1`, ...: the first position where
      `URI: ` occurs and the group can end at a newline or at the end of the text. A group that
      runs into `\r`, U+2028 or U+2029 fails, and the search moves on. */
  function UriMatchFrom(s: string, p: nat): (r: Option<string>)
    requires p <= |s|
    decreases |s| - p
  {
    if StartsWith(s[p..], UriMarker) && (LineEnd(s, p + |UriMarker|) == |s| || s[LineEnd(s, p + |UriMarker|)] == '\n')
    then Some(s[p + |UriMarker|..LineEnd(s, p + |UriMarker|)])
    else if p == |s| then None
    else UriMatchFrom(s, p + 1)
  }

  /** The URI of a source, `''` when there is no match. */
  function ExtractUri(s: string): (u: string)
    ensures forall i :: 0 <= i < |u| ==> !IsLineTerminator(u[i])
  {
    match UriMatchFrom(s, 0)
    case None => ""
    case Some(g) => UriGroupHasNoTerminator(s, 0); g
  }

  lemma {:induction false} UriGroupHasNoTerminator(s: string, p: nat)
    requires p <= |s|
    ensures UriMatchFrom(s, p).Some? ==> forall i :: 0 <= i < |UriMatchFrom(s, p).value| ==> !IsLineTerminator(UriMatchFrom(s, p).value[i])
    decreases |s| - p
  {
    if StartsWith(s[p..], UriMarker) && (LineEnd(s, p + |UriMarker|) == |s| || s[LineEnd(s, p + |UriMarker|)] == '\n') {
      var q := p + |UriMarker|;
      var g := s[q..LineEnd(s, q)];
      forall i | 0 <= i < |g| ensures !IsLineTerminator(g[i]) {
        assert g[i] == s[q + i];
      }
    } else if p < |s| {
      UriGroupHasNoTerminator(s, p + 1);
    }
  }

  /** The URI on the first `URI: ` line is found when that line ends the text or ends with `\n`:
      the group is everything after the marker on that line. */
  lemma ExtractUriOfLine(a: string, u: string, rest: string)
    requires forall k :: 0 <= k < |a| ==> !StartsWith((a + UriMarker + u + rest)[k..], UriMarker)
    requires forall j :: 0 <= j < |u| ==> !IsLineTerminator(u[j])
    requires rest == "" || rest[0] == '\n'
    ensures ExtractUri(a + UriMarker + u + rest) == u
  {
    var s := a + UriMarker + u + rest;
    var q := |a| + |UriMarker|;
    assert s[|a|..][..|UriMarker|] == UriMarker;
    LineEndAt(s, q, |u|);
    assert s[q..q + |u|] == u;
    UriMatchSkips(s, 0, |a|);
  }

  /** `LineEnd` stops after `n` characters without a line terminator that end the text or are
      followed by `\n`. */
  lemma {:induction false} LineEndAt(s: string, q: nat, n: nat)
    requires q + n <= |s|
    requires forall j :: q <= j < q + n ==> !IsLineTerminator(s[j])
    requires q + n == |s| || s[q + n] == '\n'
    ensures LineEnd(s, q) == q + n
    decreases n
  {
    if n > 0 {
      LineEndAt(s, q + 1, n - 1);
    }
  }

  /** Positions before `m` where `URI: ` does not occur are skipped. */
  lemma {:induction false} UriMatchSkips(s: string, p: nat, m: nat)
    requires p <= m <= |s|
    requires forall k :: p <= k < m ==> !StartsWith(s[k..], UriMarker)
    ensures UriMatchFrom(s, p) == UriMatchFrom(s, m)
    decreases m - p
  {
    if p < m {
      UriMatchSkips(s, p + 1, m);
    }
  }

  /** Text without `URI: ` yields the empty URI. */
  lemma NoMarkerNoUri(s: string)
    requires forall k :: 0 <= k <= |s| ==> !StartsWith(s[k..], UriMarker)
    ensures ExtractUri(s) == ""
  {
    UriMatchSkips(s, 0, |s|);
    assert s[|s|..] == "";
  }

  /** A `URI: ` line ended by `\r\n` yields no URI: `.` does not match `\r`. */
  lemma CrLfLineHasNoUri(u: string)
    requires forall j :: 0 <= j < |u| ==> !IsLineTerminator(u[j])
    ensures ExtractUri(UriMarker + u + "\r\n") == ""
  {
    var s := UriMarker + u + "\r\n";
    var r := |s| - 2;
    assert forall j :: 0 <= j < |UriMarker| ==> s[j] == UriMarker[j];
    assert forall j :: |UriMarker| <= j < r ==> s[j] == u[j - |UriMarker|];
    NoMatchBeforeCr(s, 0, r);
  }

  /** When every line from `p` on runs into the `\r` at `r`, and no `URI: ` starts at or after
      `r`, the search from `p` finds nothing. */
  lemma {:induction false} NoMatchBeforeCr(s: string, p: nat, r: nat)
    requires p <= |s| && r + 2 == |s| && s[r] == '\r'
    requires forall j :: p <= j < r ==> !IsLineTerminator(s[j])
    ensures UriMatchFrom(s, p) == None
    decreases |s| - p
  {
    if p < r && StartsWith(s[p..], UriMarker) {
      var q := p + |UriMarker|;
      LineEndCr(s, q, r - q);
    }
    if p < |s| {
      NoMatchBeforeCr(s, p + 1, r);
    }
  }

  lemma {:induction false} LineEndCr(s: string, q: nat, n: nat)
    requires q + n < |s| && s[q + n] == '\r'
    requires forall j :: q <= j < q + n ==> !IsLineTerminator(s[j])
    ensures LineEnd(s, q) == q + n
    decreases n
  {
    if n > 0 {
      LineEndCr(s, q + 1, n - 1);
    }
  }

  // ---------------------------------------------------------------------------
  // What a frame does to the pending reply and the sources

  /** The effect of one frame: nothing, one more source, or a new pending assistant reply. */
  datatype Action = Skip | AddSource(source: Source) | SetReply(text: string)

  /** The classification of one parsed frame. */
  function Classify(parsed: Option<Json>): (a: Action)
    ensures a.Skip? <==> ContentOf(parsed).None?
    ensures a.AddSource? ==> IsSourceContent(a.source.content) && ContentOf(parsed) == Some(a.source.content)
    ensures a.AddSource? ==> a.source.uri == ExtractUri(a.source.content)
    ensures a.SetReply? ==> !IsSourceContent(a.text) && ContentOf(parsed) == Some(a.text)
  {
    match ContentOf(parsed)
    case None => Skip
    case Some(c) => if IsSourceContent(c) then AddSource(Source(c, ExtractUri(c))) else SetReply(c)
  }

  /** The actions of the frames of one chunk, in order. */
  function ChunkActions(chunk: string, parse: string -> Option<Json>): (r: seq<Action>)
    ensures |r| == |EventsOf(chunk)|
  {
    var events := EventsOf(chunk);
    seq(|events|, i requires 0 <= i < |events| => Classify(parse(Payload(events[i]))))
  }

  /** The actions of all chunks read, in order. */
  function StreamActions(chunks: seq<string>, parse: string -> Option<Json>): (r: seq<Action>)
    ensures |chunks| == 0 ==> r == []
    ensures |chunks| == 1 ==> r == ChunkActions(chunks[0], parse)
    decreases |chunks|
  {
    if |chunks| == 0 then [] else StreamActions(chunks[..|chunks| - 1], parse) + ChunkActions(chunks[|chunks| - 1], parse)
  }

  /** Reading more chunks only appends their actions after the earlier ones. */
  lemma {:induction false} StreamActionsAppend(a: seq<string>, b: seq<string>, parse: string -> Option<Json>)
    ensures StreamActions(a + b, parse) == StreamActions(a, parse) + StreamActions(b, parse)
    decreases |b|
  {
    if |b| == 0 {
      assert a + b == a;
    } else {
      var b' := b[..|b| - 1];
      assert a + b == (a + b') + [b[|b| - 1]];
      StreamActionsSnoc(a + b', b[|b| - 1], parse);
      StreamActionsSnoc(b', b[|b| - 1], parse);
      StreamActionsAppend(a, b', parse);
      var last := ChunkActions(b[|b| - 1], parse);
      var x, y := StreamActions(a, parse), StreamActions(b', parse);
      ConcatAssoc(x, y, last);
    }
  }

  lemma ConcatAssoc<T>(x: seq<T>, y: seq<T>, z: seq<T>)
    ensures (x + y) + z == x + (y + z)
  {
  }

  /** One more chunk appends that chunk's actions. */
  lemma StreamActionsSnoc(cs: seq<string>, c: string, parse: string -> Option<Json>)
    ensures StreamActions(cs + [c], parse) == StreamActions(cs, parse) + ChunkActions(c, parse)
  {
    var ds := cs + [c];
    assert ds[..|ds| - 1] == cs && ds[|ds| - 1] == c;
  }

  /** The sources, in the order their frames arrived. */
  function SourcesOf(acts: seq<Action>): (r: seq<Source>)
    ensures |r| <= |acts|
    decreases |acts|
  {
    if |acts| == 0 then []
    else SourcesOf(acts[..|acts| - 1]) + (if acts[|acts| - 1].AddSource? then [acts[|acts| - 1].source] else [])
  }

  /** The reply that wins: the text of the last reply frame, if there is one. */
  function LastReply(acts: seq<Action>): (r: Option<string>)
    ensures r.None? <==> forall k :: 0 <= k < |acts| ==> !acts[k].SetReply?
    ensures r.Some? ==> exists k :: IsLastReplyAt(acts, k, r.value)
    decreases |acts|
  {
    if |acts| == 0 then None
    else
      var n := |acts| - 1;
      if acts[n].SetReply? then
        assert IsLastReplyAt(acts, n, acts[n].text);
        Some(acts[n].text)
      else
        var r := LastReply(acts[..n]);
        assert forall k :: 0 <= k < n ==> acts[..n][k] == acts[k];
        assert r.Some? ==> exists k :: IsLastReplyAt(acts, k, r.value) by {
          if r.Some? {
            var k :| IsLastReplyAt(acts[..n], k, r.value);
            assert IsLastReplyAt(acts, k, r.value);
          }
        }
        r
  }

  /** `acts[k]` is the reply `t` and no reply follows it. */
  predicate IsLastReplyAt(acts: seq<Action>, k: int, t: string) {
    0 <= k < |acts| && acts[k] == SetReply(t) && forall j :: k < j < |acts| ==> !acts[j].SetReply?
  }

  /** Sources are collected frame by frame. */
  lemma {:induction false} SourcesOfAppend(a: seq<Action>, b: seq<Action>)
    ensures SourcesOf(a + b) == SourcesOf(a) + SourcesOf(b)
    decreases |b|
  {
    if |b| == 0 {
      assert a + b == a;
    } else {
      var n := |b| - 1;
      assert (a + b)[..|a + b| - 1] == a + b[..n];
      assert (a + b)[|a + b| - 1] == b[n];
      SourcesOfAppend(a, b[..n]);
    }
  }

  /** Every source frame contributes, in order: a source is collected for each source frame, and
      for nothing else. */
  lemma {:induction false} SourcesOfMembers(acts: seq<Action>, s: Source)
    ensures s in SourcesOf(acts) <==> AddSource(s) in acts
    decreases |acts|
  {
    if |acts| > 0 {
      var n := |acts| - 1;
      SourcesOfMembers(acts[..n], s);
      assert acts == acts[..n] + [acts[n]];
      assert AddSource(s) in acts <==> AddSource(s) in acts[..n] || acts[n] == AddSource(s);
    }
  }

  /** The frames after the winning reply still add to the sources: the assistant message's array
      ends up with the sources of the whole stream, which are those that arrived before the
      winning reply followed by those that arrived after it. */
  lemma SourcesAroundLastReply(acts: seq<Action>, k: nat)
    requires k < |acts| && acts[k].SetReply?
    ensures SourcesOf(acts) == SourcesOf(acts[..k]) + SourcesOf(acts[k + 1..])
  {
    var x, y := acts[..k], acts[k + 1..];
    assert acts == (x + [acts[k]]) + y;
    SourcesOfAppend(x + [acts[k]], y);
    assert (x + [acts[k]])[..k] == x;
    assert SourcesOf(x + [acts[k]]) == SourcesOf(x);
  }

  /** A reply in a later chunk overrides the pending one; otherwise the pending one stays. */
  lemma LastReplyAppend(a: seq<Action>, b: seq<Action>)
    ensures LastReply(a + b) == if LastReply(b).Some? then LastReply(b) else LastReply(a)
    decreases |b|
  {
    if |b| > 0 {
      var n := |b| - 1;
      assert (a + b)[..|a + b| - 1] == a + b[..n];
      assert (a + b)[|a + b| - 1] == b[n];
      LastReplyAppend(a, b[..n]);
    } else {
      assert a + b == a;
    }
  }

  // ---------------------------------------------------------------------------
  // Consuming the stream

  /** The loop state after the frames `acts`: the shared array holds their sources, and the
      pending assistant message, present exactly when a reply frame arrived, carries the last
      reply and shares the array. */
  predicate Pending(current: SourceList, pending: Option<ChatMessage>, acts: seq<Action>)
    reads current
  {
    && current.items == SourcesOf(acts)
    && (pending.None? <==> LastReply(acts).None?)
    && (pending.Some? ==> pending.value == ChatMessage(LastReply(acts).value, Assistant, Some(current)))
  }

  /** What one more frame does to the sources and to the pending reply. */
  lemma ActionEffect(done: seq<Action>, a: Action)
    ensures SourcesOf(done + [a]) == SourcesOf(done) + (if a.AddSource? then [a.source] else [])
    ensures LastReply(done + [a]) == if a.SetReply? then Some(a.text) else LastReply(done)
  {
    assert (done + [a])[..|done|] == done;
  }

  /** The body of the `for` loop for one classified frame: a source is pushed into the shared
      array, a reply makes a new pending assistant message sharing that array. */
  method Apply(action: Action, current: SourceList, pending: Option<ChatMessage>, ghost done: seq<Action>)
    returns (next: Option<ChatMessage>)
    requires Pending(current, pending, done)
    modifies current
    ensures Pending(current, next, done + [action])
  {
    ActionEffect(done, action);
    next := pending;
    match action {
      case AddSource(s) =>
        current.Push(s);
      case SetReply(t) =>
        next := Some(ChatMessage(t, Assistant, Some(current)));
      case Skip =>
    }
  }

  /** The actions of a chunk's frames up to `j + 1` extend those up to `j` by frame `j`'s. */
  lemma ChunkActionsStep(chunk: string, parse: string -> Option<Json>, before: seq<Action>, j: nat)
    requires j < |EventsOf(chunk)|
    ensures before + ChunkActions(chunk, parse)[..j + 1] ==
      before + ChunkActions(chunk, parse)[..j] + [Classify(parse(Payload(EventsOf(chunk)[j])))]
  {
    var acts := ChunkActions(chunk, parse);
    assert acts[j] == Classify(parse(Payload(EventsOf(chunk)[j])));
    TakeSnoc(acts, j);
    ConcatAssoc(before, acts[..j], [acts[j]]);
  }

  lemma TakeSnoc<T>(s: seq<T>, j: nat)
    requires j < |s|
    ensures s[..j + 1] == s[..j] + [s[j]]
  {
  }

  /** The `for` loop over the `data:` frames of one chunk. */
  method ConsumeChunk(chunk: string, parse: string -> Option<Json>, current: SourceList,
                      pending: Option<ChatMessage>, ghost before: seq<Action>) returns (next: Option<ChatMessage>)
    requires Pending(current, pending, before)
    modifies current
    ensures Pending(current, next, before + ChunkActions(chunk, parse))
  {
    ghost var acts := ChunkActions(chunk, parse);
    var events := EventsOf(chunk);
    next := pending;
    var j := 0;
    ghost var done := before;
    assert acts[..0] == [];
    while j < |events|
      invariant 0 <= j <= |events|
      invariant done == before + acts[..j]
      invariant Pending(current, next, done)
    {
      var action := Classify(parse(Payload(events[j])));
      ChunkActionsStep(chunk, parse, before, j);
      next := Apply(action, current, next, done);
      done := done + [action];
      j := j + 1;
    }
    assert acts[..|events|] == acts;
  }

  // ---------------------------------------------------------------------------
  // The panel

  /** What the server stream delivers to the reader: the chunks read, and whether reading then
      failed (a rejected `fetch` or `read`) instead of reporting `done`. */
  datatype Delivery = Delivery(chunks: seq<string>, failed: bool)

  class ChatPanel {
    var messages: seq<ChatMessage>
    var loading: bool

    constructor ()
      ensures messages == [] && !loading
    {
      messages, loading := [], false;
    }

    /** The part of `handleSend` before the request: a blank text changes nothing and sends
        nothing; otherwise the user message is appended, `loading` is set and the request body
        lists every message, the new one last. */
    method Begin(text: string) returns (request: Option<Json>)
      modifies this
      ensures request.None? <==> IsBlank(text)
      ensures IsBlank(text) ==> messages == old(messages) && loading == old(loading)
      ensures !IsBlank(text) ==> messages == old(messages) + [ChatMessage(text, User, None)] && loading
      ensures !IsBlank(text) ==> request == Some(RequestBody(messages))
    {
      if IsBlank(text) {
        return None;
      }
      var userMessage := ChatMessage(text, User, None);
      request := Some(RequestBody(messages + [userMessage]));
      messages := messages + [userMessage];
      loading := true;
    }

    /** The part after the request: every `data:` frame of every chunk is parsed and classified;
        sources are pushed into one fresh array, and a reply frame makes a new pending assistant
        message that shares that array. The pending message is appended when reading ended
        normally; `loading` is cleared in every case. */
    method Finish(chunks: seq<string>, failed: bool, parse: string -> Option<Json>) returns (sources: SourceList)
      modifies this
      ensures fresh(sources)
      ensures sources.items == SourcesOf(StreamActions(chunks, parse))
      ensures !loading
      ensures var reply := LastReply(StreamActions(chunks, parse));
        messages == old(messages) + (if !failed && reply.Some? then [ChatMessage(reply.value, Assistant, Some(sources))] else [])
    {
      var current := new SourceList();
      var assistant: Option<ChatMessage> := None;
      var i := 0;
      while i < |chunks|
        invariant 0 <= i <= |chunks|
        invariant Pending(current, assistant, StreamActions(chunks[..i], parse))
        modifies current
      {
        assert chunks[..i + 1][..i] == chunks[..i];
        assistant := ConsumeChunk(chunks[i], parse, current, assistant, StreamActions(chunks[..i], parse));
        i := i + 1;
      }
      assert chunks[..i] == chunks;
      if !failed && assistant.Some? {
        messages := messages + [assistant.value];
      }
      loading := false;
      sources := current;
    }

    /** `handleSend`: `Begin`, the request through `fetch`, then `Finish` on what it delivers.
        The result is the request body that was sent, `None` when nothing was sent. */
    method HandleSend(text: string, fetch: Json -> Delivery, parse: string -> Option<Json>) returns (request: Option<Json>)
      modifies this
      ensures request.None? <==> IsBlank(text)
      ensures IsBlank(text) ==> messages == old(messages) && loading == old(loading)
      ensures !IsBlank(text) ==>
        var sent := old(messages) + [ChatMessage(text, User, None)];
        var d := fetch(RequestBody(sent));
        var acts := StreamActions(d.chunks, parse);
        var added := !d.failed && LastReply(acts).Some?;
        && request == Some(RequestBody(sent))
        && !loading
        && |messages| == |sent| + (if added then 1 else 0)
        && messages[..|sent|] == sent
        && (added ==>
              && messages[|sent|].text == LastReply(acts).value
              && messages[|sent|].sender == Assistant
              && messages[|sent|].sources.Some?
              && messages[|sent|].sources.value.items == SourcesOf(acts))
    {
      request := Begin(text);
      if request.None? {
        return;
      }
      ghost var sent := messages;
      var d := fetch(request.value);
      var s := Finish(d.chunks, d.failed, parse);
      assert messages[..|sent|] == sent;
    }
  }
}
