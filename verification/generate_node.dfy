/**
 * The deterministic part of the `generate` node of `src/services/chatbot.py`:
 * collecting the trailing run of tool messages, joining their contents into
 * the context, building the system instruction, filtering the history and
 * assembling the prompt handed to the language model.
 */
module GenerateNode {
  import opened Sequences
  import opened ChatMessages

  /** How many tool messages end the log. */
  function ToolRunLength(log: seq<Message>): (n: nat)
    ensures n <= |log|
    ensures forall i :: |log| - n <= i < |log| ==> log[i].ToolMessage?
    ensures n < |log| ==> !log[|log| - n - 1].ToolMessage?
    decreases |log|
  {
    if log != [] && log[|log| - 1].ToolMessage? then 1 + ToolRunLength(log[..|log| - 1]) else 0
  }

  /**
   * The longest run of tool messages at the end of the log, in log order
   * (the tool results the `tools` node has just appended).
   */
  function ToolSuffix(log: seq<Message>): (r: seq<Message>)
    ensures |r| <= |log| && r == log[|log| - |r|..]
    ensures AllTool(r)
    ensures |r| < |log| ==> !log[|log| - |r| - 1].ToolMessage?
  {
    log[|log| - ToolRunLength(log)..]
  }

  /** No suffix made only of tool messages is longer than the tool suffix. */
  lemma ToolSuffixLongest(log: seq<Message>, t: seq<Message>)
    requires |t| <= |log| && t == log[|log| - |t|..]
    requires AllTool(t)
    ensures |t| <= |ToolSuffix(log)|
  {
    var n := ToolRunLength(log);
    if n < |t| {
      assert log[|log| - n - 1] == t[|t| - n - 1];
    }
  }

  /** A suffix of tool messages that cannot be extended is the tool suffix. */
  lemma ToolSuffixUnique(log: seq<Message>, t: seq<Message>)
    requires |t| <= |log| && t == log[|log| - |t|..]
    requires AllTool(t)
    requires |t| < |log| ==> !log[|log| - |t| - 1].ToolMessage?
    ensures t == ToolSuffix(log)
  {
    ToolSuffixLongest(log, t);
  }

  /**
   * The loop of `generate`: walk the log backwards collecting tool messages
   * until the first message of another type, then restore log order.
   */
  method RecentToolMessages(log: seq<Message>) returns (toolMessages: seq<Message>)
    ensures toolMessages == ToolSuffix(log)
  {
    var recent: seq<Message> := [];
    var i := |log|;
    while i > 0
      invariant 0 <= i <= |log|
      invariant recent == Reverse(log[i..])
      invariant AllTool(log[i..])
    {
      if log[i - 1].ToolMessage? {
        assert log[i - 1..][1..] == log[i..];
        recent := recent + [log[i - 1]];
        i := i - 1;
      } else {
        break;
      }
    }
    toolMessages := Reverse(recent);
    ReverseInvolution(log[i..]);
    ToolSuffixUnique(log, log[i..]);
  }

  /** The tool results joined by blank lines: `"\n\n".join(doc.content for doc in tool_messages)`. */
  function DocsContent(toolMessages: seq<Message>): (r: string)
    ensures toolMessages == [] ==> r == ""
    ensures |toolMessages| == 1 ==> r == toolMessages[0].content
  {
    Join("\n\n", Contents(toolMessages))
  }

  /** Each tool result appears verbatim in the context, in order, separated by one blank line. */
  lemma DocsContentLayout(toolMessages: seq<Message>, k: nat)
    requires k < |toolMessages|
    ensures var parts, d := Contents(toolMessages), DocsContent(toolMessages);
      && Offset("\n\n", parts, k) + |parts[k]| <= |d|
      && d[Offset("\n\n", parts, k) .. Offset("\n\n", parts, k) + |parts[k]|] == toolMessages[k].content
      && (k + 1 == |toolMessages| ==> Offset("\n\n", parts, k) + |parts[k]| == |d|)
      && (k + 1 < |toolMessages| ==>
            Offset("\n\n", parts, k + 1) == Offset("\n\n", parts, k) + |parts[k]| + 2 <= |d|
            && d[Offset("\n\n", parts, k) + |parts[k]| .. Offset("\n\n", parts, k + 1)] == "\n\n")
  {
    JoinPiece("\n\n", Contents(toolMessages), k);
    if k + 1 < |toolMessages| {
      JoinSeparator("\n\n", Contents(toolMessages), k);
    }
  }

  /** The fixed instruction that opens the system message. */
  const Instruction: string :=
    "You are an assistant for question-answering tasks. "
    + "Use the following pieces of retrieved context to answer "
    + "the question. If the following context don't provide the related answer, "
    + "say that you don't know."
    + "\n\n"

  const ContextOpen: string := "context: \"\"\""
  const ContextClose: string := "\"\"\" "

  /** The system instruction with the context embedded between triple quotes. */
  function SystemPromptText(docs: string): (r: string)
    ensures |r| == |Instruction| + |ContextOpen| + |docs| + |ContextClose|
    ensures r[..|Instruction|] == Instruction
    ensures r[|Instruction|..|Instruction| + |ContextOpen|] == ContextOpen
    ensures r[|Instruction| + |ContextOpen|..|r| - |ContextClose|] == docs
    ensures r[|r| - |ContextClose|..] == ContextClose
  {
    Instruction + ContextOpen + docs + ContextClose
  }

  /** The context is recoverable from the instruction: different contexts give different prompts. */
  lemma SystemPromptTextInjective(a: string, b: string)
    requires SystemPromptText(a) == SystemPromptText(b)
    ensures a == b
  {
    var n := |Instruction| + |ContextOpen|;
    assert a == SystemPromptText(a)[n..|SystemPromptText(a)| - |ContextClose|];
  }

  /**
   * The history condition: human and system messages, and ai messages that
   * call no tool. Equivalently, exactly tool messages and tool requests are
   * dropped.
   */
  predicate KeepInHistory(m: Message)
    ensures KeepInHistory(m) <==> !m.ToolMessage? && !IsToolRequest(m)
  {
    m.HumanMessage? || m.SystemMessage? || (m.AiMessage? && m.toolCalls == [])
  }

  /** The conversation messages handed to the model, in log order. */
  function ConversationMessages(log: seq<Message>): (r: seq<Message>)
    ensures IsSubsequence(r, log)
    ensures forall m :: m in r <==> m in log && KeepInHistory(m)
    ensures forall i :: 0 <= i < |r| ==> !r[i].ToolMessage? && !IsToolRequest(r[i])
  {
    FilterIsSubsequence(KeepInHistory, log);
    FilterMembers(KeepInHistory, log);
    FilterKept(KeepInHistory, log);
    Filter(KeepInHistory, log)
  }

  /** How often each message occurs in the history: as in the log if kept, else never. */
  lemma ConversationMessagesCount(log: seq<Message>, m: Message)
    ensures multiset(ConversationMessages(log))[m] == if KeepInHistory(m) then multiset(log)[m] else 0
  {
    FilterCount(KeepInHistory, log, m);
  }

  /** The prompt of `generate`: one system message, then the filtered history. */
  function GeneratePrompt(log: seq<Message>): (r: seq<Message>)
    ensures |r| == 1 + |ConversationMessages(log)|
    ensures r[0] == SystemMessage(SystemPromptText(DocsContent(ToolSuffix(log))))
    ensures r[1..] == ConversationMessages(log)
  {
    [SystemMessage(SystemPromptText(DocsContent(ToolSuffix(log))))] + ConversationMessages(log)
  }

  /**
   * After a tool-requesting ai message and the tool results answering it,
   * the context is exactly those results and the history is that of the log
   * before the request: neither the request nor the results reach the history.
   */
  lemma GeneratePromptAfterTools(history: seq<Message>, request: Message, results: seq<Message>)
    requires IsToolRequest(request)
    requires AllTool(results)
    ensures ToolSuffix(history + [request] + results) == results
    ensures ConversationMessages(history + [request] + results) == ConversationMessages(history)
    ensures GeneratePrompt(history + [request] + results)
         == [SystemMessage(SystemPromptText(DocsContent(results)))] + ConversationMessages(history)
  {
    var log := history + [request] + results;
    assert results == log[|log| - |results|..];
    if |results| < |log| {
      assert log[|log| - |results| - 1] == request;
    }
    ToolSuffixUnique(log, results);
    FilterAppend(KeepInHistory, history + [request], results);
    FilterAppend(KeepInHistory, history, [request]);
    assert Filter(KeepInHistory, results) == [] by {
      FilterNoneKept(results);
    }
    assert Filter(KeepInHistory, [request]) == [];
  }

  lemma {:induction false} FilterNoneKept(ms: seq<Message>)
    requires AllTool(ms)
    ensures Filter(KeepInHistory, ms) == []
    decreases |ms|
  {
    if ms != [] {
      FilterNoneKept(ms[1..]);
    }
  }
}
