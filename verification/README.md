# Thai medical RAG chatbot: the conversation graph and the Thai text cleaner

This project models, in Dafny, the two parts of the chatbot service that hold its own logic.

**The conversation graph** of `Chatbot` (`src/services/chatbot.py`):
- The graph has three nodes over an append-only message log: `query_or_respond`, `tools` and `generate`.
- The wiring between the nodes is fixed. `query_or_respond` goes to END, or through `tools` to `generate` and then END.
- The `generate` node does these deterministic steps:
  - a backward scan collects the trailing run of tool messages;
  - their contents are joined with blank lines into the context of a fixed system instruction;
  - the history is filtered to human, system and non-tool-calling ai messages;
  - the prompt is assembled from the instruction and that history.
- `stream_response` runs the graph on a thread of the in-memory checkpointer. It returns only the fragments emitted by `query_or_respond` and `generate`.
- The language model (with and without the retrieve tool bound) and the retrieve tool are foreign calls. They are parameters of the model, collected in `ChatGraph.Oracles`.

**The Thai text cleaner** (`src/utilities/text_utils.py`, `src/services/text_cleaner.py`):
- `thai_to_arabic` translates the Thai digits ๐–๙ to 0–9.
- `remove_unimportant_word` is a chain of four regular-expression deletions. It removes line breaks and tabs, then all whitespace (then `strip()`), then parenthesised single letters `(c)`, then whitespace between a Thai consonant and a following vowel, tone mark or sign (U+0E30–U+0E39, U+0E47–U+0E4F).
- `TextCleaner.preprocess_text` applies the translation and then the deletions.

Layout:
- `sequences.dfy` (`Sequences`): subsequences, filtering, reversal, concatenation and `sep.join`.
- `text_utils.dfy` (`TextUtils`): the two functions of `text_utils.py`, step by step.
- `text_cleaner.dfy` (`TextCleaner`): `preprocess_text`.
- `chat_messages.dfy` (`ChatMessages`): the four message types and tool calls.
- `generate_node.dfy` (`GenerateNode`): the `generate` node's list operations. The backward scan is a method with a loop, proved equal to the longest all-tool suffix.
- `chat_graph.dfy` (`ChatGraph`): nodes, wiring, one run of the graph, the stream filter, and the `Chatbot` class. The class's checkpointer is a `map` from thread id to log, which `StreamResponse` updates.

Python's whitespace is `TextUtils.IsSpace`. It is the set of characters for which `str.isspace()` holds, which is also what `\s` in a `str` pattern and `str.strip()` use. The proofs use only these facts about it: `\n`, `\r` and `\t` are whitespace, and digits, parentheses and label letters are not. Text is modelled as a sequence of Unicode scalar values; lone surrogates, which a Python `str` can hold, are outside the model.

## Model

| member | source | states |
|---|---|---|
| TextUtils.TranslateChar | src/utilities/text_utils.py:21-22 | a Thai digit becomes the Arabic digit of the same value; any other character is kept |
| TextUtils.ThaiToArabic | src/utilities/text_utils.py:19-22 | length is preserved; position i of the output depends only on position i of the input; Thai digits are translated, every other character is unchanged; no Thai digit remains |
| TextUtils.ThaiToArabicAppend | src/utilities/text_utils.py:21-22 | the translation commutes with concatenation |
| TextUtils.ThaiToArabicIdempotent | src/utilities/text_utils.py:21-22 | translating twice equals translating once |
| TextUtils.ThaiToArabicUnchanged | src/utilities/text_utils.py:21-22 | the text is unchanged if and only if it holds no Thai digit |
| TextUtils.RemoveLabels | src/utilities/text_utils.py:35 | the left-to-right deletion of `(c)` labels never lengthens the text |
| TextUtils.RemoveLabelsAroundLabel | src/utilities/text_utils.py:35 | every label is deleted wherever it stands: removal around a label is removal on each side of it, so `(a)(b)` becomes the empty text |
| TextUtils.TrailingSpaces | src/utilities/text_utils.py:34 | the whitespace run at the end, which `strip()` cuts off, is all whitespace and cannot be extended |
| TextUtils.StripSlice | src/utilities/text_utils.py:34 | `strip()` returns the slice of its input after the leading whitespace run, with only whitespace cut off after it; the result neither starts nor ends with whitespace |
| TextUtils.JoinVowels | src/utilities/text_utils.py:36 | the fourth substitution never lengthens the text and deletes only whitespace: every other character survives, in order |
| TextUtils.LeadingSpaces | src/utilities/text_utils.py:34-36 | the whitespace run at the start (what `strip()` cuts in front, and the greedy `\s+` of the fourth substitution) is all whitespace and cannot be extended |
| TextUtils.StripNoSpace | src/utilities/text_utils.py:34 | `strip()` changes nothing once whitespace is gone |
| TextUtils.JoinVowelsNoSpace | src/utilities/text_utils.py:36 | the fourth substitution is the identity on whitespace-free text |
| TextUtils.RemoveLabelsSubsequence | src/utilities/text_utils.py:35 | label removal only deletes: its output is a subsequence of its input |
| TextUtils.RemoveLabelsDeletesTriples | src/utilities/text_utils.py:35 | the length drops by a multiple of three (whole labels only) |
| TextUtils.RemoveLabelsKeepsOthers | src/utilities/text_utils.py:35 | every character other than a parenthesis or label letter survives, in order |
| TextUtils.RemoveLabelsShrinks | src/utilities/text_utils.py:35 | a label anywhere in the text makes the output strictly shorter |
| TextUtils.RemoveLabelsUnchanged | src/utilities/text_utils.py:35 | label removal leaves the text unchanged if and only if it holds no label |
| TextUtils.RemoveLabelsNoSpace | src/utilities/text_utils.py:35 | label removal introduces no whitespace |
| TextUtils.RemoveUnimportantWord | src/utilities/text_utils.py:31-37 | the four steps equal whitespace deletion followed by label removal (the first step, `strip()` and the fourth step are subsumed or inert) |
| TextUtils.RemoveUnimportantWordShape | src/utilities/text_utils.py:33-37 | the output has no whitespace (in particular no `\n`, `\r`, `\t`), is a subsequence of the input, and is no longer than it |
| TextUtils.RemoveUnimportantWordUnchanged | src/utilities/text_utils.py:31-37 | the text comes back unchanged if and only if it has no whitespace and no label |
| TextUtils.RemoveLabelsExample | src/utilities/text_utils.py:35 | `((a)b)` becomes `(b)`; `(b)` and `(a)(b)` become the empty text |
| TextUtils.RemoveUnimportantWordNotIdempotent | src/utilities/text_utils.py:31-37 | the function is not idempotent: `((a)b)` gives `(b)`, which a second pass empties |
| TextCleaner.PreprocessText | src/services/text_cleaner.py:22-35 | the output has no Thai digit and no whitespace; it is a subsequence of the translated input, no longer than the input; every non-digit character of it occurs in the input (no case folding or normalisation) |
| TextCleaner.TranslateCharClasses | src/services/text_cleaner.py:32-34 | translation preserves whitespace, parentheses and label letters |
| TextCleaner.TranslateCons | src/services/text_cleaner.py:32 | translating a character in front of a text translates that character and the rest |
| TextCleaner.TranslateSuffix | src/services/text_cleaner.py:32 | the translation of a suffix is the suffix of the translation |
| TextCleaner.TranslateCommutesWithSpaceRemoval | src/services/text_cleaner.py:32-34 | translation commutes with whitespace deletion |
| TextCleaner.TranslateCommutesWithLabelRemoval | src/services/text_cleaner.py:32-34 | translation commutes with label removal |
| TextCleaner.PreprocessTextCommutes | src/services/text_cleaner.py:32-35 | translating before or after the deletions gives the same text |
| TextCleaner.PreprocessTextUnchanged | src/services/text_cleaner.py:22-35 | clean text (no Thai digit, whitespace or label) and only clean text comes back unchanged |
| TextCleaner.PreprocessTextIdempotent | src/services/text_cleaner.py:22-35 | a second pass changes nothing when the first output has no label |
| GenerateNode.ToolRunLength | src/services/chatbot.py:198-203 | the counted messages at the end are all tool messages and the one before them is not |
| GenerateNode.ToolSuffix | src/services/chatbot.py:198-204 | a suffix of the log, all tool messages, not extendable by one more tool message |
| GenerateNode.ToolSuffixLongest | src/services/chatbot.py:198-204 | no all-tool suffix is longer |
| GenerateNode.ToolSuffixUnique | src/services/chatbot.py:198-204 | any all-tool suffix that cannot be extended is the tool suffix |
| GenerateNode.RecentToolMessages | src/services/chatbot.py:198-204 | the backward scan with its break, then the reversal, returns exactly the tool suffix in log order |
| GenerateNode.DocsContent | src/services/chatbot.py:205 | no tool messages give the empty context; one gives its content |
| GenerateNode.DocsContentLayout | src/services/chatbot.py:205 | each tool result appears verbatim at its offset, in order; consecutive results are separated by exactly `\n\n`; the last result ends the context |
| GenerateNode.SystemPromptText | src/services/chatbot.py:206-213 | the system text is the fixed instruction, `context: """`, the context and `""" `, in that order |
| GenerateNode.SystemPromptTextInjective | src/services/chatbot.py:206-213 | different contexts give different system texts |
| GenerateNode.KeepInHistory | src/services/chatbot.py:217-218 | a message is kept exactly when it is neither a tool message nor an ai message with tool calls |
| GenerateNode.ConversationMessages | src/services/chatbot.py:214-219 | the history is a subsequence of the log; it holds exactly the human, system and non-tool-calling ai messages; no tool message and no tool request survive |
| GenerateNode.ConversationMessagesCount | src/services/chatbot.py:214-219 | each kept message occurs as often as in the log, each dropped one never |
| GenerateNode.FilterNoneKept | src/services/chatbot.py:214-219 | a run of tool messages contributes nothing to the history |
| GenerateNode.GeneratePrompt | src/services/chatbot.py:220 | one system message with the tool-suffix context, then the filtered history; length is one more than the history |
| GenerateNode.GeneratePromptAfterTools | src/services/chatbot.py:196-222 | after a tool request and its results, the context is exactly those results and neither the request nor the results reach the history |
| ChatGraph.Next | src/services/chatbot.py:228-235 | no edge returns to the entry, every edge lowers the rank (no cycle), and `tools` follows exactly `query_or_respond` with a tool-calling last message |
| ChatGraph.ToolsCondition | src/services/chatbot.py:229-233 | the next node is `tools` exactly when the last message is an ai message with tool calls, and END otherwise |
| ChatGraph.ToolResults | src/services/chatbot.py:194 | one tool message per tool call, in call order, answering that call's id with that call's retrieve result |
| ChatGraph.RunNode | src/services/chatbot.py:188-222 | `query_or_respond` and `generate` append exactly one ai message (the latter with no tool calls); `tools` appends one tool message per call; every emitted item is tagged with the node |
| ChatGraph.RunFrom | src/services/chatbot.py:224-236 | a run only appends: the log before it is a prefix of the log after it, and strictly shorter when a node ran |
| ChatGraph.Invoke | src/services/chatbot.py:248-252 | a run starts at `query_or_respond` and only appends: the input is a strict prefix of the final log |
| ChatGraph.RunGenerate | src/services/chatbot.py:196-222 | `generate` appends the model's answer to its prompt and ends the run |
| ChatGraph.RunTools | src/services/chatbot.py:194 | `tools` appends the results of the last message's calls and hands over to `generate` |
| ChatGraph.RunQueryOrRespond | src/services/chatbot.py:188-192 | `query_or_respond` appends the reply of the tool-bound model and hands over to the node `tools_condition` picks |
| ChatGraph.TurnWithToolsRun | src/services/chatbot.py:224-236 | a reply with tool calls runs `query_or_respond`, `tools`, `generate`, appending the request, one result per call and the answer, and emitting the three nodes' items in order |
| ChatGraph.TurnWithoutTools | src/services/chatbot.py:228-235 | a reply with no tool call ends the turn after `query_or_respond`, appending only that reply |
| ChatGraph.TurnWithTools | src/services/chatbot.py:224-236 | a reply with tool calls runs `query_or_respond`, `tools`, `generate`; the exact log and emitted items, and the final prompt built from this turn's results and the history before the turn |
| ChatGraph.TurnShape | src/services/chatbot.py:228-235 | the only executions are the two paths; `tools` runs if and only if the first reply has tool calls; the input is a prefix of the result; the turn ends with an ai message that calls no tool |
| ChatGraph.Forwarded | src/services/chatbot.py:257-258 | the stream is no longer than the items; all items pass when all come from the model nodes; none pass when none do |
| ChatGraph.ForwardedAppend | src/services/chatbot.py:255-258 | the stream filter commutes with concatenation, so it keeps emission order |
| ChatGraph.ForwardedTagged | src/services/chatbot.py:257-258 | fragments of `generate` and `query_or_respond` pass unchanged; the output of `tools` never passes |
| ChatGraph.ForwardFragments | src/services/chatbot.py:255-258 | the loop returns the contents of exactly the items of the two model nodes, in order |
| ChatGraph.ForwardedModelNodes | src/services/chatbot.py:255-258 | of a three-node run, the first reply's fragments and then the answer's are forwarded |
| ChatGraph.TurnStreamWithoutTools | src/services/chatbot.py:255-258 | without tools the stream is the reply's fragments, which concatenate to the appended reply's text |
| ChatGraph.TurnStreamWithTools | src/services/chatbot.py:255-258 | with tools the stream is the first reply's fragments then the answer's; no tool result is streamed; together they are the text of the two ai messages appended |
| ChatGraph.FreshTurnPrompt | src/services/chatbot.py:246-251 | on a fresh thread the final prompt is the system instruction around this turn's results followed by the user message alone |
| ChatGraph.Chatbot.constructor | src/services/chatbot.py:182-183 | the checkpointer starts empty |
| ChatGraph.Chatbot.StreamResponse | src/services/chatbot.py:243-258 | the user message is appended to the thread's history, the graph runs on it, the thread's log is saved and no other thread changes; the result is the forwarded fragments of the run; on a fresh thread the graph sees only the new user message |

## Left out

- The model calls never fail in the model: `ChatGraph.Oracles` holds total functions and `ChatGraph.Chatbot.StreamResponse` always completes. In the source, an exception from `llm_with_tools.invoke` or `self.llm.invoke` propagates out of `graph.stream` and `stream_response` in the middle of a turn. The caller then keeps the fragments already yielded, and the checkpointer keeps the steps that finished.
- The language model calls (`ChatOpenAI`, `bind_tools`, `invoke`) are foreign calls. They are the functions `chatWithTools` and `chat` of `ChatGraph.Oracles`. The LLM cache is not modelled.
- The retrieve tool body (embedding, Qdrant search, serialisation of the result) is a foreign call. It is the function `retrieve` of `ChatGraph.Oracles`, giving one tool message's content per tool call. Tool errors are whatever text that function gives.
- `uuid.uuid4()` is randomness. `ChatGraph.Chatbot.StreamResponse` takes the thread id as a parameter. Its fresh-thread ensures is conditional on the id not being in the checkpointer yet.
- `async_wrapper` and `asyncio.sleep(0)` only schedule. The stream is a plain sequence returned whole.
- The `print` of the query, the WebSocket endpoint, the load test, the Streamlit page and the front end are I/O or UI and are not modelled.
- The constructor's clients (Qdrant client, embedder, environment variables) are not modelled. `src/services/thai_to_vec_embedder.py` is not part of this model.
- The graph runtime (`StateGraph`, `compile`, `MemorySaver`, `ToolNode`, `tools_condition`) is not part of the repository. It is modelled by what the wiring denotes:
  - a run visits nodes until END;
  - each node's messages are appended to the log;
  - the checkpointer is a map from thread id to log.
- The message reducer's replacement of a message that has an existing id is not modelled, because every message here is new.
- `tools_condition` raising on an empty state cannot happen: the log always ends with the reply just appended.
- `normalize_text` and `text_splitter` are not part of this model. Neither is the unused `tiktoken` tokenizer field of `TextCleaner`.
- The commented-out earlier versions of the chatbot are not live code and are not modelled.
- Streamed chunks of a model reply are modelled as the reply's list of fragments. The appended message's content is their concatenation.
- TextUtils.IsSpace is written as the fixed set of characters for which Python's `str.isspace()` holds. It is not derived from the Unicode database.
