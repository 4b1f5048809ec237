/**
 * The conversation graph of `Chatbot` in `src/services/chatbot.py`: three
 * nodes over an append-only message log, the fixed wiring between them, one
 * run of the graph per user turn, and the filter that `stream_response`
 * applies to what the run emits. The language model and the retrieve tool
 * are foreign calls and are given as functions in `Oracles`.
 */
module ChatGraph {
  import opened Sequences
  import opened ChatMessages
  import opened GenerateNode

  /** The nodes of the graph; `End` is the graph's END marker. */
  datatype Node = QueryOrRespond | Tools | Generate | End

  /** A model reply as it is streamed: its content fragments and its tool calls. */
  datatype Reply = Reply(chunks: seq<string>, toolCalls: seq<ToolCall>)

  /**
   * The foreign calls: the model with the retrieve tool bound to it, the
   * plain model (whose reply calls no tool), and the retrieve tool run on one
   * tool call (its serialised search result, or the tool error text).
   */
  datatype Oracles = Oracles(
    chatWithTools: seq<Message> -> Reply,
    chat: seq<Message> -> seq<string>,
    retrieve: ToolCall -> string)

  /** One item of the `"messages"` stream: a content fragment and the node that produced it. */
  datatype Item = Item(content: string, node: Node)

  /** What one node contributes: the messages it appends and the items it emits. */
  datatype Step = Step(appended: seq<Message>, emitted: seq<Item>)

  /** One run of the graph: the nodes visited, the final log and the emitted items. */
  datatype Execution = Execution(trace: seq<Node>, log: seq<Message>, emitted: seq<Item>)

  /** The entry point set by `set_entry_point("query_or_respond")`. */
  const Entry: Node := QueryOrRespond

  /** Distance to `End` along the wiring; every edge goes strictly down. */
  function Rank(n: Node): nat {
    match n
    case QueryOrRespond => 2
    case Tools => 1
    case Generate => 0
    case End => 0
  }

  /** The last message of the log asks for a tool run. */
  predicate LastIsToolRequest(log: seq<Message>) {
    log != [] && IsToolRequest(log[|log| - 1])
  }

  /** `tools_condition`: go to the tools node when the last message has tool calls, else end. */
  function ToolsCondition(log: seq<Message>): (n: Node)
    ensures n == Tools || n == End
    ensures n == Tools <==> log != [] && log[|log| - 1].AiMessage? && log[|log| - 1].toolCalls != []
  {
    if LastIsToolRequest(log) then Tools else End
  }

  /**
   * The wiring: a conditional edge out of `query_or_respond`, then
   * `tools` to `generate` and `generate` to END. No edge leads back, so
   * the graph has no cycle.
   */
  function Next(n: Node, log: seq<Message>): (m: Node)
    requires n != End
    ensures m == End || Rank(m) < Rank(n)
    ensures m != QueryOrRespond
    ensures m == Tools <==> n == QueryOrRespond && LastIsToolRequest(log)
  {
    if n == QueryOrRespond then ToolsCondition(log)
    else if n == Tools then Generate
    else End
  }

  /** One tool message per tool call, answering it, in call order. */
  function ToolResults(calls: seq<ToolCall>, o: Oracles): (r: seq<Message>)
    ensures |r| == |calls| && AllTool(r)
    ensures forall i :: 0 <= i < |calls| ==> r[i].toolCallId == calls[i].id
    ensures forall i :: 0 <= i < |calls| ==> r[i].content == o.retrieve(calls[i])
  {
    seq(|calls|, i requires 0 <= i < |calls| => ToolMessage(o.retrieve(calls[i]), calls[i].id))
  }

  /** Fragments tagged with the node that emitted them. */
  function Tagged(parts: seq<string>, n: Node): seq<Item> {
    seq(|parts|, i requires 0 <= i < |parts| => Item(parts[i], n))
  }

  /**
   * Running one node on the current log. `query_or_respond` and `generate`
   * each append the model's one reply; `tools` appends one tool message per
   * call of the last message (the wiring only reaches it after such a call).
   */
  function RunNode(n: Node, log: seq<Message>, o: Oracles): (s: Step)
    requires n != End
    requires n == Tools ==> LastIsToolRequest(log)
    ensures n != Tools ==> |s.appended| == 1 && s.appended[0].AiMessage?
    ensures n == Generate ==> !IsToolRequest(s.appended[0])
    ensures n == Tools ==> AllTool(s.appended) && |s.appended| == |log[|log| - 1].toolCalls| > 0
    ensures forall i :: 0 <= i < |s.emitted| ==> s.emitted[i].node == n
  {
    if n == QueryOrRespond then
      var reply := o.chatWithTools(log);
      Step([AiMessage(Flatten(reply.chunks), reply.toolCalls)], Tagged(reply.chunks, QueryOrRespond))
    else if n == Tools then
      var results := ToolResults(log[|log| - 1].toolCalls, o);
      Step(results, Tagged(Contents(results), Tools))
    else
      var answer := o.chat(GeneratePrompt(log));
      Step([AiMessage(Flatten(answer), [])], Tagged(answer, Generate))
  }

  /** Running the graph from node `n` until END. Every step only appends to the log. */
  function RunFrom(n: Node, log: seq<Message>, o: Oracles): (e: Execution)
    requires n == Tools ==> LastIsToolRequest(log)
    ensures log <= e.log
    ensures n != End ==> |log| < |e.log|
    decreases Rank(n), n != End
  {
    if n == End then Execution([], log, [])
    else
      var s := RunNode(n, log, o);
      var after := log + s.appended;
      var rest := RunFrom(Next(n, after), after, o);
      Execution([n] + rest.trace, rest.log, s.emitted + rest.emitted)
  }

  /**
   * One invocation of the compiled graph on the thread's messages: it starts
   * at the entry point and only appends to them.
   */
  function Invoke(input: seq<Message>, o: Oracles): (e: Execution)
    ensures e.trace != [] && e.trace[0] == QueryOrRespond
    ensures input <= e.log && |input| < |e.log|
  {
    RunFrom(Entry, input, o)
  }

  /** `generate` runs once and ends the graph. */
  lemma RunGenerate(log: seq<Message>, o: Oracles)
    ensures var answer := o.chat(GeneratePrompt(log));
      RunFrom(Generate, log, o)
        == Execution([Generate], log + [AiMessage(Flatten(answer), [])], Tagged(answer, Generate))
  {
    var s := RunNode(Generate, log, o);
    assert Next(Generate, log + s.appended) == End;
  }

  /** `tools` answers the request at the end of the log, then `generate` runs and the graph ends. */
  lemma RunTools(log: seq<Message>, o: Oracles)
    requires LastIsToolRequest(log)
    ensures var results := ToolResults(log[|log| - 1].toolCalls, o);
      var answer := o.chat(GeneratePrompt(log + results));
      RunFrom(Tools, log, o)
        == Execution([Tools, Generate], log + results + [AiMessage(Flatten(answer), [])],
                     Tagged(Contents(results), Tools) + Tagged(answer, Generate))
  {
    var results := ToolResults(log[|log| - 1].toolCalls, o);
    assert RunNode(Tools, log, o).appended == results;
    RunGenerate(log + results, o);
  }

  /** `query_or_respond` appends the model's reply and hands over as `tools_condition` decides. */
  lemma RunQueryOrRespond(input: seq<Message>, o: Oracles)
    ensures var reply := o.chatWithTools(input);
      var after := input + [AiMessage(Flatten(reply.chunks), reply.toolCalls)];
      var rest := RunFrom(ToolsCondition(after), after, o);
      Invoke(input, o)
        == Execution([QueryOrRespond] + rest.trace, rest.log, Tagged(reply.chunks, QueryOrRespond) + rest.emitted)
  {
  }

  /** A turn whose first reply calls no tool: `query_or_respond` then END. */
  lemma TurnWithoutTools(input: seq<Message>, o: Oracles)
    requires o.chatWithTools(input).toolCalls == []
    ensures var reply, e := o.chatWithTools(input), Invoke(input, o);
      && e.trace == [QueryOrRespond]
      && e.log == input + [AiMessage(Flatten(reply.chunks), [])]
      && e.emitted == Tagged(reply.chunks, QueryOrRespond)
  {
    var reply := o.chatWithTools(input);
    var after := input + [AiMessage(Flatten(reply.chunks), reply.toolCalls)];
    assert Next(QueryOrRespond, after) == End;
  }

  /**
   * A turn whose first reply calls the tool runs `query_or_respond`,
   * `tools`, `generate`, END, appending the request, one result per call and
   * the answer.
   */
  lemma TurnWithToolsRun(input: seq<Message>, o: Oracles)
    requires o.chatWithTools(input).toolCalls != []
    ensures var reply, e := o.chatWithTools(input), Invoke(input, o);
      var request := AiMessage(Flatten(reply.chunks), reply.toolCalls);
      var results := ToolResults(reply.toolCalls, o);
      var answer := o.chat(GeneratePrompt(input + [request] + results));
      && e.trace == [QueryOrRespond, Tools, Generate]
      && e.log == input + [request] + results + [AiMessage(Flatten(answer), [])]
      && e.emitted == Tagged(reply.chunks, QueryOrRespond) + Tagged(Contents(results), Tools) + Tagged(answer, Generate)
  {
    var reply := o.chatWithTools(input);
    var request := AiMessage(Flatten(reply.chunks), reply.toolCalls);
    var log1 := input + [request];
    var results := ToolResults(reply.toolCalls, o);
    var final := AiMessage(Flatten(o.chat(GeneratePrompt(log1 + results))), []);
    var a, b, c := Tagged(reply.chunks, QueryOrRespond), Tagged(Contents(results), Tools),
                   Tagged(o.chat(GeneratePrompt(log1 + results)), Generate);
    assert log1[|log1| - 1] == request;
    assert ToolsCondition(log1) == Tools;
    var rest := RunFrom(Tools, log1, o);
    assert rest == Execution([Tools, Generate], log1 + results + [final], b + c) by {
      RunTools(log1, o);
    }
    RunQueryOrRespond(input, o);
    ThenRun(Invoke(input, o), QueryOrRespond, a, rest, [Tools, Generate], log1 + results + [final], b, c);
  }

  /** Prefixing one node's step to a two-node run. */
  lemma ThenRun(e: Execution, n: Node, a: seq<Item>, rest: Execution,
                trace: seq<Node>, log: seq<Message>, b: seq<Item>, c: seq<Item>)
    requires e == Execution([n] + rest.trace, rest.log, a + rest.emitted)
    requires rest == Execution(trace, log, b + c)
    ensures e == Execution([n] + trace, log, a + b + c)
  {
    AppendAssociative(a, b, c);
  }

  /**
   * A turn whose first reply calls the tool: `query_or_respond`, `tools`,
   * `generate`, END. The final prompt is the system instruction around
   * exactly this turn's tool results, followed by the history before the turn.
   */
  lemma TurnWithTools(input: seq<Message>, o: Oracles)
    requires o.chatWithTools(input).toolCalls != []
    ensures var reply, e := o.chatWithTools(input), Invoke(input, o);
      var request := AiMessage(Flatten(reply.chunks), reply.toolCalls);
      var results := ToolResults(reply.toolCalls, o);
      var answer := o.chat([SystemMessage(SystemPromptText(DocsContent(results)))] + ConversationMessages(input));
      && e.trace == [QueryOrRespond, Tools, Generate]
      && e.log == input + [request] + results + [AiMessage(Flatten(answer), [])]
      && e.emitted == Tagged(reply.chunks, QueryOrRespond) + Tagged(Contents(results), Tools) + Tagged(answer, Generate)
  {
    var reply := o.chatWithTools(input);
    var request := AiMessage(Flatten(reply.chunks), reply.toolCalls);
    var results := ToolResults(reply.toolCalls, o);
    TurnWithToolsRun(input, o);
    GeneratePromptAfterTools(input, request, results);
  }

  /**
   * The only executions are `query_or_respond` alone and
   * `query_or_respond`, `tools`, `generate`; the tools node runs exactly when
   * the first reply has tool calls, and the turn ends with an ai message
   * that calls no tool.
   */
  lemma TurnShape(input: seq<Message>, o: Oracles)
    ensures var e := Invoke(input, o);
      && e.trace == (if o.chatWithTools(input).toolCalls == [] then [QueryOrRespond]
                     else [QueryOrRespond, Tools, Generate])
      && (Tools in e.trace <==> o.chatWithTools(input).toolCalls != [])
      && |e.log| > |input| && e.log[..|input|] == input
      && e.log[|e.log| - 1].AiMessage? && e.log[|e.log| - 1].toolCalls == []
  {
    if o.chatWithTools(input).toolCalls == [] {
      TurnWithoutTools(input, o);
    } else {
      TurnWithTools(input, o);
    }
  }

  // ---------------------------------------------------------------------
  // stream_response
  // ---------------------------------------------------------------------

  /** The nodes whose output reaches the caller. */
  predicate IsForwarded(item: Item) {
    item.node == Generate || item.node == QueryOrRespond
  }

  /** The contents of the items from `generate` and `query_or_respond`, in emission order. */
  function Forwarded(items: seq<Item>): (r: seq<string>)
    ensures |r| <= |items|
    ensures (forall i :: 0 <= i < |items| ==> IsForwarded(items[i])) ==> |r| == |items|
    ensures (forall i :: 0 <= i < |items| ==> !IsForwarded(items[i])) ==> r == []
    decreases |items|
  {
    if items == [] then []
    else (if IsForwarded(items[0]) then [items[0].content] else []) + Forwarded(items[1..])
  }

  /** The filter works item by item, so it keeps emission order across concatenation. */
  lemma {:induction false} ForwardedAppend(a: seq<Item>, b: seq<Item>)
    ensures Forwarded(a + b) == Forwarded(a) + Forwarded(b)
    decreases |a|
  {
    if a == [] {
      assert a + b == b;
    } else {
      var head := if IsForwarded(a[0]) then [a[0].content] else [];
      calc {
        Forwarded(a + b);
      == { assert (a + b)[0] == a[0] && (a + b)[1..] == a[1..] + b; }
        head + Forwarded(a[1..] + b);
      == { ForwardedAppend(a[1..], b); }
        head + (Forwarded(a[1..]) + Forwarded(b));
      ==
        (head + Forwarded(a[1..])) + Forwarded(b);
      }
    }
  }

  /** Fragments of the model nodes pass unchanged; the tools node's output never does. */
  lemma {:induction false} ForwardedTagged(parts: seq<string>, n: Node)
    ensures Forwarded(Tagged(parts, n)) == if n == Generate || n == QueryOrRespond then parts else []
    decreases |parts|
  {
    if parts != [] {
      ForwardedTagged(parts[1..], n);
      var t := Tagged(parts, n);
      assert t[0] == Item(parts[0], n) && t[1..] == Tagged(parts[1..], n);
      if n == Generate || n == QueryOrRespond {
        assert parts == [parts[0]] + parts[1..];
      }
    }
  }

  /** The loop of `stream_response` over the emitted items. */
  method ForwardFragments(items: seq<Item>) returns (fragments: seq<string>)
    ensures fragments == Forwarded(items)
  {
    fragments := [];
    for i := 0 to |items|
      invariant fragments == Forwarded(items[..i])
    {
      assert Forwarded(items[..i + 1]) == Forwarded(items[..i]) + Forwarded([items[i]]) by {
        assert items[..i + 1] == items[..i] + [items[i]];
        ForwardedAppend(items[..i], [items[i]]);
      }
      assert Forwarded([items[i]]) == if IsForwarded(items[i]) then [items[i].content] else [] by {
        assert [items[i]][1..] == [];
      }
      if items[i].node == Generate || items[i].node == QueryOrRespond {
        fragments := fragments + [items[i].content];
      }
    }
    assert items[..|items|] == items;
  }

  /** A turn without tools streams the fragments of its one reply, which make up that reply's text. */
  lemma TurnStreamWithoutTools(input: seq<Message>, o: Oracles)
    requires o.chatWithTools(input).toolCalls == []
    ensures var e := Invoke(input, o);
      && Forwarded(e.emitted) == o.chatWithTools(input).chunks
      && Flatten(Forwarded(e.emitted)) == e.log[|input|].content
  {
    TurnWithoutTools(input, o);
    ForwardedTagged(o.chatWithTools(input).chunks, QueryOrRespond);
  }

  /**
   * A turn with tools streams the fragments of the first reply and then those
   * of the final answer; no tool result is streamed. Concatenated, they are
   * the text of the two ai messages the turn appended.
   */
  lemma TurnStreamWithTools(input: seq<Message>, o: Oracles)
    requires o.chatWithTools(input).toolCalls != []
    ensures var reply := o.chatWithTools(input);
      var answer := o.chat([SystemMessage(SystemPromptText(DocsContent(ToolResults(reply.toolCalls, o))))]
                           + ConversationMessages(input));
      var e := Invoke(input, o);
      && Forwarded(e.emitted) == reply.chunks + answer
      && Flatten(Forwarded(e.emitted)) == e.log[|input|].content + e.log[|e.log| - 1].content
  {
    var reply := o.chatWithTools(input);
    var results := ToolResults(reply.toolCalls, o);
    var answer := o.chat([SystemMessage(SystemPromptText(DocsContent(results)))] + ConversationMessages(input));
    var request := AiMessage(Flatten(reply.chunks), reply.toolCalls);
    TurnWithTools(input, o);
    ForwardedModelNodes(reply.chunks, Contents(results), answer);
    var log := input + [request] + results + [AiMessage(Flatten(answer), [])];
    assert log[|input|] == request;
    FlattenAppend(reply.chunks, answer);
  }

  lemma ForwardedModelNodes(first: seq<string>, tools: seq<string>, answer: seq<string>)
    ensures Forwarded(Tagged(first, QueryOrRespond) + Tagged(tools, Tools) + Tagged(answer, Generate)) == first + answer
  {
    var a, b, c := Tagged(first, QueryOrRespond), Tagged(tools, Tools), Tagged(answer, Generate);
    calc {
      Forwarded(a + b + c);
    == { ForwardedAppend(a + b, c); }
      Forwarded(a + b) + Forwarded(c);
    == { ForwardedAppend(a, b); }
      Forwarded(a) + Forwarded(b) + Forwarded(c);
    == { ForwardedTagged(first, QueryOrRespond); ForwardedTagged(tools, Tools); ForwardedTagged(answer, Generate); }
      first + [] + answer;
    }
  }

  /** The messages the checkpointer holds for a thread; a new thread starts empty. */
  function History(memory: map<string, seq<Message>>, threadId: string): seq<Message> {
    if threadId in memory then memory[threadId] else []
  }

  /**
   * The chatbot with its in-memory checkpointer: the message log saved per
   * thread id, updated by every run of the graph.
   */
  class Chatbot {
    const oracles: Oracles
    var memory: map<string, seq<Message>>

    constructor (oracles: Oracles)
      ensures this.oracles == oracles && memory == map[]
    {
      this.oracles := oracles;
      memory := map[];
    }

    /**
     * `stream_response`: the user message is appended to the thread's
     * history, the graph runs, the thread's log is saved, and the fragments
     * of the two model nodes are returned in order. `threadId` stands for
     * the `uuid4()` drawn on each call; for a fresh id the graph sees only
     * the new user message.
     */
    method StreamResponse(query: string, threadId: string) returns (fragments: seq<string>)
      modifies this
      ensures var e := Invoke(History(old(memory), threadId) + [HumanMessage(query)], oracles);
        && memory == old(memory)[threadId := e.log]
        && fragments == Forwarded(e.emitted)
      ensures threadId !in old(memory) ==> memory[threadId] == Invoke([HumanMessage(query)], oracles).log
      ensures forall id :: id in old(memory) && id != threadId ==> id in memory && memory[id] == old(memory)[id]
    {
      var input := History(memory, threadId) + [HumanMessage(query)];
      assert threadId !in memory ==> input == [HumanMessage(query)];
      var e := Invoke(input, oracles);
      memory := memory[threadId := e.log];
      fragments := ForwardFragments(e.emitted);
    }
  }

  /**
   * A fresh thread's turn that retrieves: the model answers from the prompt
   * made of the system instruction around the tool results and the user
   * message alone.
   */
  lemma FreshTurnPrompt(query: string, o: Oracles)
    requires o.chatWithTools([HumanMessage(query)]).toolCalls != []
    ensures var reply := o.chatWithTools([HumanMessage(query)]);
      var results := ToolResults(reply.toolCalls, o);
      var request := AiMessage(Flatten(reply.chunks), reply.toolCalls);
      GeneratePrompt([HumanMessage(query), request] + results)
        == [SystemMessage(SystemPromptText(DocsContent(results))), HumanMessage(query)]
  {
    var reply := o.chatWithTools([HumanMessage(query)]);
    var results := ToolResults(reply.toolCalls, o);
    var request := AiMessage(Flatten(reply.chunks), reply.toolCalls);
    assert [HumanMessage(query), request] + results == [HumanMessage(query)] + [request] + results;
    GeneratePromptAfterTools([HumanMessage(query)], request, results);
    assert Filter(KeepInHistory, [HumanMessage(query)]) == [HumanMessage(query)];
  }
}
