/** The conversation orchestrator of server/chain.js: the `retrieve` tool, the three graph
    nodes `queryOrRespond`, `tools` and `generate`, and the fixed linear graph that runs them.
    The chat models, the embeddings and the vector index are parameters of the model. */
module Chain {
  import opened Wrappers
  import opened Strings
  import opened Messages

  // ---------------------------------------------------------------------------
  // The retrieval tool

  /** The number of documents the tool asks the similarity search for. */
  const RetrieveK: nat := 3

  /** The name the tool is registered under. */
  const RetrieveName := "retrieve"

  /** The tool's `content_and_artifact` result: the text the model sees and the raw documents. */
  datatype ToolOutput = ToolOutput(content: string, artifact: seq<Document>)

  /** One document as the model sees it. */
  function DocRecord(d: Document): string {
    "Source: " + d.metadata.source + "\nContent: " + d.pageContent
  }

  function DocRecords(docs: seq<Document>): (r: seq<string>)
    ensures |r| == |docs| && forall i :: 0 <= i < |docs| ==> r[i] == DocRecord(docs[i])
  {
    seq(|docs|, i requires 0 <= i < |docs| => DocRecord(docs[i]))
  }

  /** The serialised tool content: one record per document, joined by a newline. */
  function Serialize(docs: seq<Document>): (r: string)
    ensures |docs| == 0 ==> r == ""
    ensures |docs| > 0 ==> StartsWith(r, DocRecord(docs[0]))
  {
    if |docs| > 0 then JoinStartsWithFirst(DocRecords(docs), "\n"); Join(DocRecords(docs), "\n")
    else Join(DocRecords(docs), "\n")
  }

  /** No documents serialise to the empty text and one document to its own record. */
  lemma SerializeSmall(docs: seq<Document>)
    ensures |docs| == 0 ==> Serialize(docs) == ""
    ensures |docs| == 1 ==> Serialize(docs) == DocRecord(docs[0])
  {
  }

  /** Serialising two non-empty runs of documents puts a single newline between their serialisations:
      together with SerializeSmall this says there is one record per document, in order, and
      nothing but one newline between neighbours. */
  lemma SerializeAppend(a: seq<Document>, b: seq<Document>)
    requires |a| > 0 && |b| > 0
    ensures Serialize(a + b) == Serialize(a) + "\n" + Serialize(b)
  {
    assert DocRecords(a + b) == DocRecords(a) + DocRecords(b);
    JoinAppend(DocRecords(a), DocRecords(b), "\n");
  }

  /** A non-empty serialisation begins with the first document's record, and so with
      `Source: ` and that document's source. */
  lemma SerializeStartsWithFirst(docs: seq<Document>)
    requires |docs| > 0
    ensures StartsWith(Serialize(docs), DocRecord(docs[0]))
    ensures StartsWith(Serialize(docs), "Source: " + docs[0].metadata.source)
  {
    JoinStartsWithFirst(DocRecords(docs), "\n");
    var s, r := Serialize(docs), DocRecord(docs[0]);
    var p := "Source: " + docs[0].metadata.source;
    assert r[..|p|] == p;
    assert s[..|p|] == s[..|r|][..|p|];
  }

  /** The `retrieve` tool: ask the similarity search for `RetrieveK` documents and return
      their serialisation together with the documents themselves. */
  function Retrieve(query: string, search: (string, nat) -> seq<Document>): (out: ToolOutput)
    ensures out.artifact == search(query, RetrieveK)
    ensures out.content == Serialize(out.artifact)
  {
    var docs := search(query, RetrieveK);
    ToolOutput(Serialize(docs), docs)
  }

  // ---------------------------------------------------------------------------
  // The nodes

  /** `queryOrRespond`: the state update holding the tool-bound model's single reply. */
  function QueryOrRespond(state: seq<Message>, llmWithTools: seq<Message> -> Reply): (update: seq<Message>)
    ensures |update| == 1 && update[0].AI?
    ensures update[0] == AsMessage(llmWithTools(state))
  {
    [AsMessage(llmWithTools(state))]
  }

  /** The tool calls the `tools` node answers: those of the last message, when it is an AI
      message (assumed ToolNode behaviour). */
  function PendingCalls(state: seq<Message>): seq<ToolCall> {
    if |state| > 0 && state[|state| - 1].AI? && state[|state| - 1].toolCalls.Some?
    then state[|state| - 1].toolCalls.value
    else []
  }

  /** The `tools` node (a LangGraph ToolNode, whose internals are not part of this model):
      ASSUMED to answer every pending call, in order, with one tool message carrying the
      call's id and the tool's content and artifact. */
  function ToolsNode(state: seq<Message>, runTool: ToolCall -> ToolOutput): (update: seq<Message>)
    ensures |update| == |PendingCalls(state)|
    ensures forall i :: 0 <= i < |update| ==> update[i].Tool?
    ensures forall i :: 0 <= i < |update| ==>
      var c := PendingCalls(state)[i];
      update[i].toolCallId == c.id && update[i].content == runTool(c).content && update[i].artifact == runTool(c).artifact
  {
    var calls := PendingCalls(state);
    seq(|calls|, i requires 0 <= i < |calls| =>
      Tool(runTool(calls[i]).content, calls[i].id, runTool(calls[i]).artifact))
  }

  /** Where the trailing run of tool messages of `h` begins. The contract says it is the
      maximal contiguous suffix of tool messages. */
  function ToolRunStart(h: seq<Message>): (k: nat)
    ensures k <= |h|
    ensures forall i :: k <= i < |h| ==> h[i].Tool?
    ensures k == 0 || !h[k - 1].Tool?
    decreases |h|
  {
    if |h| > 0 && h[|h| - 1].Tool? then ToolRunStart(h[..|h| - 1]) else |h|
  }

  /** Only one position has the properties of ToolRunStart. */
  lemma {:induction false} ToolRunStartUnique(h: seq<Message>, k: nat)
    requires k <= |h|
    requires forall i :: k <= i < |h| ==> h[i].Tool?
    requires k == 0 || !h[k - 1].Tool?
    ensures k == ToolRunStart(h)
    decreases |h|
  {
    if k < |h| {
      var p := h[..|h| - 1];
      assert forall i :: k <= i < |p| ==> p[i] == h[i];
      assert k > 0 ==> p[k - 1] == h[k - 1];
      ToolRunStartUnique(p, k);
    }
  }

  /** The tool messages `generate` collects: the trailing run of tool messages, in history order. */
  function RecentToolMessages(h: seq<Message>): (r: seq<Message>)
    ensures |r| <= |h| && r == h[|h| - |r|..]
    ensures forall i :: 0 <= i < |r| ==> r[i].Tool?
    ensures |r| < |h| ==> !h[|h| - |r| - 1].Tool?
  {
    h[ToolRunStart(h)..]
  }

  /** A history that does not end in a tool message contributes no context. */
  lemma RecentToolMessagesNone(h: seq<Message>)
    requires |h| == 0 || !h[|h| - 1].Tool?
    ensures RecentToolMessages(h) == []
  {
  }

  /** The collected messages are exactly the tool messages `t` appended after a non-tool message. */
  lemma {:induction false} RecentToolMessagesAfter(prefix: seq<Message>, m: Message, t: seq<Message>)
    requires !m.Tool?
    requires forall i :: 0 <= i < |t| ==> t[i].Tool?
    ensures RecentToolMessages(prefix + [m] + t) == t
  {
    var h := prefix + [m] + t;
    ToolRunStartUnique(h, |prefix| + 1);
    assert h[|prefix| + 1..] == t;
  }

  /** `s` in reverse order, as `Array.prototype.reverse` leaves it. */
  function Reversed<T>(s: seq<T>): (r: seq<T>)
    ensures |r| == |s| && forall k :: 0 <= k < |s| ==> r[k] == s[|s| - 1 - k]
    decreases |s|
  {
    if |s| == 0 then [] else Reversed(s[1..]) + [s[0]]
  }

  /** The instruction text that opens every generation prompt. */
  const Instructions :=
    "You are an assistant that provides accurate information about U.S. utility rates. " +
    "Use the context below to answer the user's question. If you don't have sufficient data, say that you don't know. " +
    "Keep your response concise (three sentences maximum)."

  function Contents(ms: seq<Message>): (r: seq<string>)
    ensures |r| == |ms| && forall i :: 0 <= i < |ms| ==> r[i] == ms[i].content
  {
    seq(|ms|, i requires 0 <= i < |ms| => ms[i].content)
  }

  /** The system prompt's text: the instructions, a blank line and the collected tool contents. */
  function SystemPromptContent(toolMessages: seq<Message>): string {
    Instructions + "\n\n" + Join(Contents(toolMessages), "\n")
  }

  /** The "real" conversational turns: human and system messages and AI messages whose
      `tool_calls` is absent or empty. */
  predicate IsConversational(m: Message) {
    m.Human? || m.System? || (m.AI? && (m.toolCalls.None? || |m.toolCalls.value| == 0))
  }

  /** The history filter of `generate`. */
  function ConversationMessages(h: seq<Message>): (r: seq<Message>)
    ensures |r| <= |h|
    ensures forall i :: 0 <= i < |r| ==> IsConversational(r[i])
    decreases |h|
  {
    if |h| == 0 then []
    else (if IsConversational(h[0]) then [h[0]] else []) + ConversationMessages(h[1..])
  }

  /** The filter distributes over concatenation: it judges every message on its own. */
  lemma {:induction false} ConversationMessagesAppend(a: seq<Message>, b: seq<Message>)
    ensures ConversationMessages(a + b) == ConversationMessages(a) + ConversationMessages(b)
    decreases |a|
  {
    if |a| > 0 {
      assert (a + b)[1..] == a[1..] + b;
      ConversationMessagesAppend(a[1..], b);
    } else {
      assert a + b == b;
    }
  }

  /** A single message passes the filter exactly when it is conversational. */
  lemma ConversationMessagesSingle(m: Message)
    ensures ConversationMessages([m]) == if IsConversational(m) then [m] else []
  {
    assert [m][1..] == [];
  }

  /** A message survives the filter iff it is in the history and is conversational; in
      particular no tool message survives. */
  lemma {:induction false} ConversationMessagesMembers(h: seq<Message>, m: Message)
    ensures m in ConversationMessages(h) <==> m in h && IsConversational(m)
    decreases |h|
  {
    if |h| > 0 {
      ConversationMessagesMembers(h[1..], m);
      assert h == [h[0]] + h[1..];
    }
  }

  /** A run of tool messages leaves nothing after the filter. */
  lemma {:induction false} ConversationMessagesDropsTools(t: seq<Message>)
    requires forall i :: 0 <= i < |t| ==> t[i].Tool?
    ensures ConversationMessages(t) == []
  {
    ConversationMessagesDropsAll(t);
  }

  /** A run of messages none of which is conversational leaves nothing after the filter. */
  lemma {:induction false} ConversationMessagesDropsAll(t: seq<Message>)
    requires forall i :: 0 <= i < |t| ==> !IsConversational(t[i])
    ensures ConversationMessages(t) == []
    decreases |t|
  {
    if |t| > 0 {
      ConversationMessagesDropsAll(t[1..]);
    }
  }

  /** `sub` can be obtained from `s` by deleting elements. */
  predicate IsSubsequence<T(==)>(sub: seq<T>, s: seq<T>)
    decreases |s|
  {
    if |sub| == 0 then true
    else if |s| == 0 then false
    else (sub[0] == s[0] && IsSubsequence(sub[1..], s[1..])) || IsSubsequence(sub, s[1..])
  }

  /** The filter keeps the history's order. */
  lemma {:induction false} ConversationMessagesSubsequence(h: seq<Message>)
    ensures IsSubsequence(ConversationMessages(h), h)
    decreases |h|
  {
    if |h| > 0 {
      ConversationMessagesSubsequence(h[1..]);
      var r := ConversationMessages(h);
      if IsConversational(h[0]) {
        assert r[0] == h[0] && r[1..] == ConversationMessages(h[1..]);
      } else {
        assert r == ConversationMessages(h[1..]);
      }
    }
  }

  /** The prompt `generate` sends: a fresh system message, then the filtered history. */
  function Prompt(h: seq<Message>): (p: seq<Message>)
    ensures 1 <= |p| <= 1 + |h|
    ensures p[0].System?
    ensures forall i :: 1 <= i < |p| ==> !p[i].Tool?
  {
    [System(SystemPromptContent(RecentToolMessages(h)))] + ConversationMessages(h)
  }

  /** The shape of the prompt: the first element is the new system message made of the
      instructions, a blank line and the trailing tool contents joined by newlines; the rest
      is the filtered history, holding no tool message. */
  lemma PromptShape(h: seq<Message>)
    ensures |Prompt(h)| == 1 + |ConversationMessages(h)|
    ensures Prompt(h)[0] == System(Instructions + "\n\n" + Join(Contents(h[ToolRunStart(h)..]), "\n"))
    ensures Prompt(h)[1..] == ConversationMessages(h)
    ensures forall i :: 1 <= i < |Prompt(h)| ==> !Prompt(h)[i].Tool?
    ensures forall i :: 1 <= i < |Prompt(h)| ==> Prompt(h)[i] in h
  {
    forall i | 1 <= i < |Prompt(h)| ensures !Prompt(h)[i].Tool? && Prompt(h)[i] in h {
      ConversationMessagesMembers(h, Prompt(h)[i]);
    }
  }

  /** The prompt-building half of `generate`, as the source runs it: a backward scan that
      pushes tool messages until the first other message, a reversal, the join of their
      contents and the history filter. */
  method BuildPrompt(h: seq<Message>) returns (prompt: seq<Message>)
    ensures prompt == Prompt(h)
  {
    var recent: seq<Message> := [];
    var i := |h| - 1;
    while i >= 0
      invariant -1 <= i < |h|
      invariant forall j :: i < j < |h| ==> h[j].Tool?
      invariant |recent| == |h| - 1 - i
      invariant forall k :: 0 <= k < |recent| ==> recent[k] == h[|h| - 1 - k]
    {
      if h[i].Tool? {
        recent := recent + [h[i]];
        i := i - 1;
      } else {
        break;
      }
    }
    ToolRunStartUnique(h, i + 1);
    var toolMessages := Reversed(recent);
    assert toolMessages == h[i + 1..];
    var docsContent := Join(Contents(toolMessages), "\n");
    var content := Instructions + "\n\n" + docsContent;
    prompt := [System(content)] + ConversationMessages(h);
  }

  /** `generate` as the source runs it, with the prompt built by the backward loop: the state
      update holding the plain model's single reply to the prompt. */
  method Generate(h: seq<Message>, llm: seq<Message> -> Reply) returns (update: seq<Message>)
    ensures |update| == 1 && update[0].AI?
    ensures update[0] == AsMessage(llm(Prompt(h)))
    ensures update == GenerateUpdate(h, llm)
  {
    var prompt := BuildPrompt(h);
    update := [AsMessage(llm(prompt))];
  }

  /** The specification of `Generate`: the update as a function of the state, which the graph
      below applies (a function cannot call the method). */
  function GenerateUpdate(h: seq<Message>, llm: seq<Message> -> Reply): seq<Message> {
    [AsMessage(llm(Prompt(h)))]
  }

  // ---------------------------------------------------------------------------
  // The graph

  /** The graph's nodes, with LangGraph's `__start__` and `__end__`. */
  datatype Node = Start | QueryOrRespondNode | ToolsStep | GenerateNode | End

  /** The graph's edges: one unconditional successor per node. */
  function Successor(n: Node): Node {
    match n
    case Start => QueryOrRespondNode
    case QueryOrRespondNode => ToolsStep
    case ToolsStep => GenerateNode
    case GenerateNode => End
    case End => End
  }

  function Rank(n: Node): nat {
    match n
    case Start => 4
    case QueryOrRespondNode => 3
    case ToolsStep => 2
    case GenerateNode => 1
    case End => 0
  }

  /** The collaborators a run calls: the tool-bound model, tool execution and the plain model. */
  datatype Env = Env(llmWithTools: seq<Message> -> Reply, runTool: ToolCall -> ToolOutput, llm: seq<Message> -> Reply)

  /** The messages node `n` returns for state `s`. */
  function Update(n: Node, s: seq<Message>, env: Env): seq<Message> {
    match n
    case QueryOrRespondNode => QueryOrRespond(s, env.llmWithTools)
    case ToolsStep => ToolsNode(s, env.runTool)
    case GenerateNode => GenerateUpdate(s, env.llm)
    case _ => []
  }

  /** The nodes a run executes from `n` on, in order, until `__end__`. */
  function Route(n: Node): seq<Node>
    decreases Rank(n)
  {
    if n == End then [] else
      (if n == Start then [] else [n]) + Route(Successor(n))
  }

  /** The graph is linear: every run visits `queryOrRespond`, `tools` and `generate`, in this
      order, and then ends. */
  lemma RouteIsLinear()
    ensures Route(Start) == [QueryOrRespondNode, ToolsStep, GenerateNode]
  {
  }

  /** The states a run from node `n` emits in `values` mode, one after each node, where each
      node's update is appended to the state (ASSUMED: the messages reducer appends). */
  function RunFrom(n: Node, s: seq<Message>, env: Env): (r: seq<seq<Message>>)
    ensures |r| == |Route(n)|
    ensures forall i :: 0 <= i < |r| ==> s <= r[i]
    decreases Rank(n)
  {
    if n == End then []
    else if n == Start then RunFrom(Successor(n), s, env)
    else
      var s' := s + Update(n, s, env);
      [s'] + RunFrom(Successor(n), s', env)
  }

  /** The whole `values` stream of one turn: the state with the input appended, then the state
      after each node. */
  function Stream(prior: seq<Message>, input: seq<Message>, env: Env): (r: seq<seq<Message>>)
    ensures |r| == 4 && r[0] == prior + input
    ensures forall i :: 0 <= i < |r| ==> prior + input <= r[i]
  {
    RouteIsLinear();
    [prior + input] + RunFrom(Start, prior + input, env)
  }

  /** The four states of one turn's stream, node by node. */
  lemma {:induction false} StreamUnfolds(prior: seq<Message>, input: seq<Message>, env: Env)
    ensures var s0 := prior + input;
      var ai := AsMessage(env.llmWithTools(s0));
      var u := ToolsNode(s0 + [ai], env.runTool);
      Stream(prior, input, env) == [s0, s0 + [ai], s0 + [ai] + u, s0 + [ai] + u + [AsMessage(env.llm(Prompt(s0 + [ai] + u)))]]
  {
    var s0 := prior + input;
    RunFromQueryOrRespond(s0, env);
    assert RunFrom(Start, s0, env) == RunFrom(QueryOrRespondNode, s0, env);
  }

  /** The states emitted from the `queryOrRespond` node on, node by node. */
  lemma RunFromQueryOrRespond(s0: seq<Message>, env: Env)
    ensures var ai := AsMessage(env.llmWithTools(s0));
      var u := ToolsNode(s0 + [ai], env.runTool);
      RunFrom(QueryOrRespondNode, s0, env) == [s0 + [ai], s0 + [ai] + u, s0 + [ai] + u + [AsMessage(env.llm(Prompt(s0 + [ai] + u)))]]
  {
    var s1 := s0 + QueryOrRespond(s0, env.llmWithTools);
    var s2 := s1 + ToolsNode(s1, env.runTool);
    var s3 := s2 + GenerateUpdate(s2, env.llm);
    assert RunFrom(GenerateNode, s2, env) == [s3] by {
      assert RunFrom(End, s3, env) == [];
    }
    assert RunFrom(ToolsStep, s1, env) == [s2, s3];
  }

  /** After an AI message, the `tools` node answers each of its tool calls, in order, with a tool
      message carrying the call's id. */
  lemma ToolsAnswerCalls(s0: seq<Message>, ai: Message, runTool: ToolCall -> ToolOutput)
    requires ai.AI?
    ensures var u := ToolsNode(s0 + [ai], runTool);
      var calls := if ai.toolCalls.Some? then ai.toolCalls.value else [];
      |u| == |calls| && forall i :: 0 <= i < |u| ==> u[i].Tool? && u[i].toolCallId == calls[i].id
  {
    assert (s0 + [ai])[|s0 + [ai]| - 1] == ai;
  }

  /** One turn appends, after the history and the input, exactly one AI message, one tool message
      per tool call of that AI message (answering it, in order) and one final AI message, whether
      or not the model requested any tool. */
  lemma TurnShape(prior: seq<Message>, input: seq<Message>, env: Env)
    ensures var st := Stream(prior, input, env);
      |st| == 4 && st[0] == prior + input && AppendsTurn(st[0], st[1], st[2], st[3])
  {
    var s0 := prior + input;
    var ai := AsMessage(env.llmWithTools(s0));
    var u := ToolsNode(s0 + [ai], env.runTool);
    StreamUnfolds(prior, input, env);
    ToolsAnswerCalls(s0, ai, env.runTool);
    TurnAppends(s0, ai, u, AsMessage(env.llm(Prompt(s0 + [ai] + u))));
  }

  /** The states `s1`, `s2`, `s3` extend `s0` by one AI message, then one tool message per tool
      call of that AI message, answering the calls in order, then one more AI message. */
  predicate AppendsTurn(s0: seq<Message>, s1: seq<Message>, s2: seq<Message>, s3: seq<Message>) {
    && |s1| == |s0| + 1 && s1[..|s0|] == s0 && s1[|s0|].AI?
    && var calls := if s1[|s0|].toolCalls.Some? then s1[|s0|].toolCalls.value else [];
    && |s2| == |s1| + |calls| && s2[..|s1|] == s1
    && (forall i :: 0 <= i < |calls| ==> s2[|s1| + i].Tool? && s2[|s1| + i].toolCallId == calls[i].id)
    && |s3| == |s2| + 1 && s3[..|s2|] == s2 && s3[|s2|].AI?
  }

  lemma TurnAppends(s0: seq<Message>, ai: Message, u: seq<Message>, fin: Message)
    requires ai.AI? && fin.AI?
    requires var calls := if ai.toolCalls.Some? then ai.toolCalls.value else [];
      |u| == |calls| && forall i :: 0 <= i < |u| ==> u[i].Tool? && u[i].toolCallId == calls[i].id
    ensures AppendsTurn(s0, s0 + [ai], s0 + [ai] + u, s0 + [ai] + u + [fin])
  {
    var s1, s2 := s0 + [ai], s0 + [ai] + u;
    assert s1[..|s0|] == s0;
    assert s2[..|s1|] == s1;
    assert forall i :: 0 <= i < |u| ==> s2[|s1| + i] == u[i];
    assert (s2 + [fin])[..|s2|] == s2;
  }

  /** The tool is `retrieve`: every call named `retrieve` runs the `retrieve` tool over `search`
      (ASSUMED ToolNode dispatch by name, server/chain.js line 80). */
  ghost predicate RunsRetrieve(runTool: ToolCall -> ToolOutput, search: (string, nat) -> seq<Document>) {
    forall c: ToolCall :: c.name == RetrieveName ==> runTool(c) == Retrieve(c.query, search)
  }

  /** The `tools` node answers each pending `retrieve` call with the serialisation of the 3
      documents the search returns for the call's query, and those documents as its artifact. */
  lemma ToolsRunRetrieve(s1: seq<Message>, runTool: ToolCall -> ToolOutput, search: (string, nat) -> seq<Document>)
    requires RunsRetrieve(runTool, search)
    ensures var u, calls := ToolsNode(s1, runTool), PendingCalls(s1);
      forall i :: 0 <= i < |u| && calls[i].name == RetrieveName ==>
        u[i].content == Serialize(search(calls[i].query, RetrieveK)) && u[i].artifact == search(calls[i].query, RetrieveK)
  {
    var u, calls := ToolsNode(s1, runTool), PendingCalls(s1);
    forall i | 0 <= i < |u| && calls[i].name == RetrieveName
      ensures u[i].content == Serialize(search(calls[i].query, RetrieveK)) && u[i].artifact == search(calls[i].query, RetrieveK)
    {
      assert runTool(calls[i]) == Retrieve(calls[i].query, search);
    }
  }

  /** In a turn, each tool message appended for a `retrieve` call of the model's first reply carries
      the serialisation of the 3 documents the search returns for the call's query, and those
      documents as its artifact. */
  lemma RetrieveToolMessages(prior: seq<Message>, input: seq<Message>, env: Env, search: (string, nat) -> seq<Document>)
    requires RunsRetrieve(env.runTool, search)
    ensures var st := Stream(prior, input, env);
      AnswersRetrieve(st[1], st[2], search)
  {
    var st := Stream(prior, input, env);
    var s0 := prior + input;
    var s1 := s0 + [AsMessage(env.llmWithTools(s0))];
    StreamUnfolds(prior, input, env);
    assert st[1] == s1 && st[2] == s1 + ToolsNode(s1, env.runTool);
    RetrieveAnswersAfter(s1, env.runTool, search);
  }

  /** `s2` extends `s1` by one message per pending call of `s1`, and the message for the i-th
      call, when that call is a `retrieve` call, is a tool message holding the serialised search results for its query
      as content and those documents as artifact. */
  ghost predicate AnswersRetrieve(s1: seq<Message>, s2: seq<Message>, search: (string, nat) -> seq<Document>) {
    var calls := PendingCalls(s1);
    && |s2| == |s1| + |calls|
    && forall i :: 0 <= i < |calls| && calls[i].name == RetrieveName ==>
         && s2[|s1| + i].Tool?
         && s2[|s1| + i].content == Serialize(search(calls[i].query, RetrieveK))
         && s2[|s1| + i].artifact == search(calls[i].query, RetrieveK)
  }

  /** `ToolsRunRetrieve`, read at the positions the answers take after the state. */
  lemma RetrieveAnswersAfter(s1: seq<Message>, runTool: ToolCall -> ToolOutput, search: (string, nat) -> seq<Document>)
    requires RunsRetrieve(runTool, search)
    ensures AnswersRetrieve(s1, s1 + ToolsNode(s1, runTool), search)
  {
    var u := ToolsNode(s1, runTool);
    ToolsRunRetrieve(s1, runTool, search);
    assert forall i :: 0 <= i < |u| ==> (s1 + u)[|s1| + i] == u[i];
  }


  /** When every tool call of the turn is a `retrieve` call, the system prompt of `generate` is
      the instructions, a blank line, and the serialised search results of the calls' queries, in
      call order, joined by newlines. */
  lemma GenerateContextIsRetrieved(prior: seq<Message>, input: seq<Message>, env: Env, search: (string, nat) -> seq<Document>)
    requires RunsRetrieve(env.runTool, search)
    requires var ai := env.llmWithTools(prior + input);
      ai.toolCalls.Some? ==> forall i :: 0 <= i < |ai.toolCalls.value| ==> ai.toolCalls.value[i].name == RetrieveName
    ensures var st := Stream(prior, input, env);
      var ai := env.llmWithTools(prior + input);
      var calls := if ai.toolCalls.Some? then ai.toolCalls.value else [];
      SystemPromptContent(RecentToolMessages(st[2])) ==
        Instructions + "\n\n" + Join(seq(|calls|, i requires 0 <= i < |calls| => Serialize(search(calls[i].query, RetrieveK))), "\n")
  {
    var st := Stream(prior, input, env);
    var s0 := prior + input;
    var ai := AsMessage(env.llmWithTools(s0));
    var u := ToolsNode(s0 + [ai], env.runTool);
    StreamUnfolds(prior, input, env);
    assert st[2] == s0 + [ai] + u;
    RecentToolMessagesAfter(s0, ai, u);
    RetrievedContents(s0 + [ai], env.runTool, search);
  }

  /** When every pending call is a `retrieve` call, the contents of the `tools` node's messages are
      the serialised search results of the calls' queries, in call order. */
  lemma RetrievedContents(s1: seq<Message>, runTool: ToolCall -> ToolOutput, search: (string, nat) -> seq<Document>)
    requires RunsRetrieve(runTool, search)
    requires forall i :: 0 <= i < |PendingCalls(s1)| ==> PendingCalls(s1)[i].name == RetrieveName
    ensures var calls := PendingCalls(s1);
      Contents(ToolsNode(s1, runTool)) == seq(|calls|, i requires 0 <= i < |calls| => Serialize(search(calls[i].query, RetrieveK)))
  {
    var calls := PendingCalls(s1);
    var u := ToolsNode(s1, runTool);
    ToolsRunRetrieve(s1, runTool, search);
    var want := seq(|calls|, i requires 0 <= i < |calls| => Serialize(search(calls[i].query, RetrieveK)));
    forall i | 0 <= i < |calls| ensures Contents(u)[i] == want[i] {
    }
  }

  /** The context `generate` sees is exactly the tool messages the `tools` node appended in this
      turn; when the model requested no tool, it is empty and the system prompt is the
      instructions followed by a blank line. */
  lemma {:induction false} GenerateSeesThisTurnsTools(prior: seq<Message>, input: seq<Message>, env: Env)
    ensures var st := Stream(prior, input, env);
      && RecentToolMessages(st[2]) == st[2][|st[1]|..]
      && (PendingCalls(st[1]) == [] ==> SystemPromptContent(RecentToolMessages(st[2])) == Instructions + "\n\n")
  {
    var s0 := prior + input;
    var ai := AsMessage(env.llmWithTools(s0));
    var u := ToolsNode(s0 + [ai], env.runTool);
    StreamUnfolds(prior, input, env);
    ToolsAnswerCalls(s0, ai, env.runTool);
    assert (s0 + [ai] + u)[|s0 + [ai]|..] == u;
    RecentToolMessagesAfter(s0, ai, u);
  }

  /** Over a turn whose final reply requests no tools (its `tool_calls` absent or empty), the
      filtered history gains the input's conversational messages, the first reply when it is
      conversational, and the final answer; the tool messages never reach a later prompt. When
      the first reply requested tools it drops out too; when it answered directly it stays, so a
      later prompt sees two assistant replies for this turn. */
  lemma {:induction false} TurnLeavesOnlyRealTurns(prior: seq<Message>, input: seq<Message>, env: Env)
    requires var st := Stream(prior, input, env); var f := env.llm(Prompt(st[2]));
      f.toolCalls.None? || |f.toolCalls.value| == 0
    ensures var st, ai := Stream(prior, input, env), AsMessage(env.llmWithTools(prior + input));
      var fin := AsMessage(env.llm(Prompt(st[2])));
      && ConversationMessages(st[3]) ==
           ConversationMessages(prior) + ConversationMessages(input) + ConversationMessages([ai]) + [fin]
      && (ai.toolCalls.Some? && |ai.toolCalls.value| > 0 ==>
            ConversationMessages(st[3]) == ConversationMessages(prior) + ConversationMessages(input) + [fin])
      && (ai.toolCalls.None? || |ai.toolCalls.value| == 0 ==>
            ConversationMessages(st[3]) == ConversationMessages(prior) + ConversationMessages(input) + [ai, fin])
  {
    var st := Stream(prior, input, env);
    var s0 := prior + input;
    var ai := AsMessage(env.llmWithTools(s0));
    var u := ToolsNode(s0 + [ai], env.runTool);
    var fin := AsMessage(env.llm(Prompt(s0 + [ai] + u)));
    StreamUnfolds(prior, input, env);
    assert st[2] == s0 + [ai] + u && st[3] == s0 + [ai] + u + [fin];
    ToolsAnswerCalls(s0, ai, env.runTool);
    FilteredAnyTurn(prior, input, ai, u, fin);
    FirstReplyCases(ConversationMessages(prior) + ConversationMessages(input), ai, fin);
  }

  /** The first reply's share of the filtered history: nothing when it requested tools, itself
      when it answered directly. */
  lemma FirstReplyCases(c: seq<Message>, ai: Message, fin: Message)
    requires ai.AI?
    ensures ai.toolCalls.Some? && |ai.toolCalls.value| > 0 ==> c + ConversationMessages([ai]) + [fin] == c + [fin]
    ensures ai.toolCalls.None? || |ai.toolCalls.value| == 0 ==> c + ConversationMessages([ai]) + [fin] == c + [ai, fin]
  {
    ConversationMessagesSingle(ai);
    assert c + [] == c;
    assert c + [ai] + [fin] == c + [ai, fin];
  }

  /** The filter over any turn's messages: the tool messages drop out, the first AI message stays
      exactly when it is conversational, and a final AI message whose `tool_calls` is absent or
      empty stays. */
  lemma FilteredAnyTurn(prior: seq<Message>, input: seq<Message>, ai: Message, t: seq<Message>, fin: Message)
    requires forall i :: 0 <= i < |t| ==> t[i].Tool?
    requires IsConversational(fin)
    ensures ConversationMessages(prior + input + [ai] + t + [fin]) ==
      ConversationMessages(prior) + ConversationMessages(input) + ConversationMessages([ai]) + [fin]
  {
    var a := prior + input;
    var x := a + [ai];
    var y := x + t;
    ConversationMessagesAppend(y, [fin]);
    ConversationMessagesSingle(fin);
    assert ConversationMessages(y + [fin]) == ConversationMessages(y) + [fin];
    FilterSkips(x, t);
    ConversationMessagesAppend(a, [ai]);
    ConversationMessagesAppend(prior, input);
  }

  /** The filter over a turn's messages: the tool-calling AI message and the tool messages drop
      out, a final AI message whose `tool_calls` is absent or empty stays. */
  lemma FilteredTurn(prior: seq<Message>, input: seq<Message>, ai: Message, t: seq<Message>, fin: Message)
    requires ai.AI? && ai.toolCalls.Some? && |ai.toolCalls.value| > 0
    requires forall i :: 0 <= i < |t| ==> t[i].Tool?
    requires fin.AI? && IsConversational(fin)
    ensures ConversationMessages(prior + input + [ai] + t + [fin]) ==
      ConversationMessages(prior) + ConversationMessages(input) + [fin]
  {
    var a := prior + input;
    var dropped := [ai] + t;
    assert a + [ai] + t == a + dropped;
    forall i | 0 <= i < |dropped| ensures dropped[i].Tool? || dropped[i] == ai {
      if i > 0 { assert dropped[i] == t[i - 1]; }
    }
    FilterSkips(a, dropped);
    ConversationMessagesAppend(a + dropped, [fin]);
    ConversationMessagesSingle(fin);
    ConversationMessagesAppend(prior, input);
  }

  /** Messages that are not conversational leave the filtered history as it was. */
  lemma FilterSkips(h: seq<Message>, t: seq<Message>)
    requires forall i :: 0 <= i < |t| ==> !IsConversational(t[i])
    ensures ConversationMessages(h + t) == ConversationMessages(h)
  {
    ConversationMessagesAppend(h, t);
    ConversationMessagesDropsAll(t);
    assert ConversationMessages(h) + [] == ConversationMessages(h);
  }

}
