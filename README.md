# Round-robin agent chats and a retrieve-then-generate FAQ bot, in Dafny

This project models the deterministic core of three demo scripts that drive a
generative model through small "agents":

- **May21/data_analysis_pipeline.py**: a `RoundRobinGroupChat` that keeps a
  cursor in `[0, n)` and hands each message to the agent under the cursor,
  advancing the cursor (with wrap-around) *before* the agent runs; and the
  mock `GeminiLLM.generate` reply format.
- **May22/faq_chatbot_with_rag.py**: the placeholder 128-entry embedding, the
  FAQ entries put into the vector store, the retriever that flattens the
  store's nested reply and joins it with newlines, the responder's
  "Context: / Question:" prompt, the query handler that retrieves and then
  responds, and a second `RoundRobinGroupChat` that keeps an unbounded counter
  and reduces it modulo n when it selects.
- **May19/web_research_assistant.py**: the Gemini REST endpoint URL, the request
  payload, the handling of the reply (a status other than 200 raises), and the
  summarizer's input shaping: truncation to 3000 characters with a
  `"\n\n[Truncated]"` marker, a fixed prompt, and `strip()` of the reply.

Files and modules:

| file | module | contents |
|---|---|---|
| outcomes.dfy | `Outcomes` | `Option`, the exceptions the code can raise (`Error`), `Outcome` (a value or a raised exception) |
| strings.dfy | `Strings` | Python's `s[:k]` (`Take`), the inverse of a prompt template (`Unwrap`), first-occurrence search |
| round_robin.dfy | `RoundRobin` | the selection schedules of both group chats as functions, and the lemmas about them |
| data_analysis_pipeline.dfy | `DataAnalysisPipeline` | the cursor group chat (a class) and the mock `generate` |
| faq_chatbot_with_rag.dfy | `FaqChatbotWithRag` | embedding, FAQ entries, retrieval, prompt, handler, the counter group chat (a class) |
| web_research_assistant.dfy | `WebResearchAssistant` | URL, payload, reply reading, truncation, summary prompt, strip, summarize |

Each group chat is a class whose `agents` list is a `const` (it is never
reassigned after construction) and whose `index` field its turn method
updates. A ghost field `served` records the indices of the agents selected so
far, and `Valid()` ties it, and the cursor, to the schedule functions of
`RoundRobin`; the lemmas there then speak about every run of the class.

Every collaborator whose code is not part of this model is a function
parameter that returns an `Outcome`, so it may raise: an agent's `step` or
`handle`, the vector store's query (`Collection`), the generative model
(`Model`), and the HTTP POST (`Transport`). The scripts catch nothing, so every
exception propagates unchanged to the caller, and the model does the same.

Points where the code's behaviour is easy to misread:

- The responder returns the model's text as it is; it is not trimmed. Only the
  summarizer strips its reply.
- An empty agent list is not a dedicated configuration error. In the pipeline it
  raises `IndexError` at the list lookup. In the chatbot it raises
  `ZeroDivisionError` at the modulo. In both, the cursor is left unchanged and
  no agent runs.
- No error is split into transient and permanent kinds. A failing model call is
  just an exception that propagates.

## Model

| member | source | states |
|---|---|---|
| `RoundRobin.Advance` | May21/data_analysis_pipeline.py:33 | `(i + 1) % n` stays in `[0, n)`: it is `i + 1`, or 0 when `i` was the last index |
| `RoundRobin.Slots` | May21/data_analysis_pipeline.py:31-34 | the indices selected by k turns of the wrapping cursor: exactly k of them, each a valid index |
| `RoundRobin.CursorAfter` | May21/data_analysis_pipeline.py:33 | the cursor after k turns is always a valid index |
| `RoundRobin.CounterSlots` | May22/faq_chatbot_with_rag.py:54-55 | the counter variant's j-th selection from counter t is `(t + j) % n` |
| `RoundRobin.SlotsSplit` | May21/data_analysis_pipeline.py:31-34 | k1 + k2 turns are k1 turns followed by k2 turns from the cursor the first ones left |
| `RoundRobin.SlotsAscending` | May21/data_analysis_pipeline.py:33 | turns that do not reach the end of the list select consecutive indices; reaching the end wraps the cursor to 0 |
| `RoundRobin.FullCycle` | May21/data_analysis_pipeline.py:31-34 | n turns from cursor c select c, …, n-1, then 0, …, c-1, and the cursor returns to c |
| `RoundRobin.EachOnceInCycle` | May21/data_analysis_pipeline.py:31-34 | over n consecutive turns every agent index is selected, and none twice |
| `RoundRobin.WindowIsCycle` | May21/data_analysis_pipeline.py:31-34 | any n consecutive turns of a chat, after any number of earlier turns, form a full cycle from the cursor they found |
| `RoundRobin.SingleAgent` | May21/data_analysis_pipeline.py:33 | with one agent every turn selects it and the cursor stays 0 |
| `RoundRobin.AdvanceMod` | May22/faq_chatbot_with_rag.py:54-55 | advancing the reduced counter equals reducing the incremented counter |
| `RoundRobin.VariantsAgree` | May22/faq_chatbot_with_rag.py:54-55 | for the same list and the same number of earlier turns, both chats select the same agents, and the wrapping cursor equals the counter mod n |
| `DataAnalysisPipeline.MockGenerate` | May21/data_analysis_pipeline.py:12-15 | the reply is `"LLM(" + model + ") response to: "`, then the first 50 characters of the prompt, then `"..."`: the frame unwraps to `prompt[:50]`, and its length is the model length + 22 + min(50, prompt length) |
| `Strings.Take` | May21/data_analysis_pipeline.py:15 | `s[:k]` (also used for `text[:3000]`, and for `[:128]` on the list of code points of the embedded text): the first k elements, or all of s when it is shorter |
| `DataAnalysisPipeline.RoundRobinGroupChat.constructor` | May21/data_analysis_pipeline.py:27-29 | a new chat holds the given agents, cursor 0, nothing served yet |
| `DataAnalysisPipeline.RoundRobinGroupChat.NextTurn` | May21/data_analysis_pipeline.py:31-34 | empty list: `IndexError`, cursor unchanged; otherwise it returns exactly `step(agents[old index], message)`, sets the cursor to `(old index + 1) % n` even when the step raises, records the selected index, and keeps `Valid()` |
| `FaqChatbotWithRag.Zeros` | May22/faq_chatbot_with_rag.py:15 | `[0.0] * k` has k zeros, and none when k <= 0 |
| `FaqChatbotWithRag.CodePoints` | May22/faq_chatbot_with_rag.py:15 | one code point per character, in order |
| `FaqChatbotWithRag.Embed` | May22/faq_chatbot_with_rag.py:14-15 | the embedding always has 128 entries; entry i is the code point of character i for i < min(len, 128), and 0 after that |
| `FaqChatbotWithRag.EmbedSeesOnlyPrefix` | May22/faq_chatbot_with_rag.py:15 | texts that agree on their first 128 characters share an embedding |
| `FaqChatbotWithRag.EntryFor` | May22/faq_chatbot_with_rag.py:24-26 | the id is the item id; the document is question + " " + answer, from which both can be read back; the embedding is over question + answer with no space |
| `FaqChatbotWithRag.PopulateFaq` | May22/faq_chatbot_with_rag.py:18-26 | one entry per FAQ item, in order, each built as `EntryFor` describes |
| `FaqChatbotWithRag.FirstFaqEmbedding` | May22/faq_chatbot_with_rag.py:20-26 | the stored embedding of the password item begins with 'H' and has the answer's 'G' at 27, right after the 27-character question (no space); every entry from 59 to 127, past the 59 characters of question and answer, is 0 |
| `FaqChatbotWithRag.RetrievalRequest` | May22/faq_chatbot_with_rag.py:33-35 | the store is asked with exactly one query embedding, `Embed(query)` (128 entries), and `n_results = top_k` |
| `FaqChatbotWithRag.Flatten` | May22/faq_chatbot_with_rag.py:36 | every document of every inner list is in the flat list, and everything in the flat list comes from some inner list; a single inner list flattens to itself, which with `FlattenAppend` fixes the flattening, multiplicity and order included, on every input |
| `FaqChatbotWithRag.FlattenAppend` | May22/faq_chatbot_with_rag.py:36 | flattening a concatenation of outer lists concatenates their flattenings, so order is kept |
| `FaqChatbotWithRag.FlattenAt` | May22/faq_chatbot_with_rag.py:36 | document j of inner list i sits in the flat list right after everything of the lists before i |
| `FaqChatbotWithRag.JoinLines` | May22/faq_chatbot_with_rag.py:37 | joining no documents gives the empty string, and joining one gives that document unchanged (the general case is `JoinLinesAppend`) |
| `FaqChatbotWithRag.JoinLinesEnds` | May22/faq_chatbot_with_rag.py:37 | for any non-empty list, the joined text starts with the first document and ends with the last |
| `FaqChatbotWithRag.JoinLinesAppend` | May22/faq_chatbot_with_rag.py:37 | for any two non-empty lists, joining their concatenation is joining each and putting exactly one newline between; with the one-document case this fixes the join for every input, newlines in documents included |
| `FaqChatbotWithRag.SplitLines` | May22/faq_chatbot_with_rag.py:37 | an inverse written for the round-trip lemmas, not code of the script: Python's `split("\n")` of the joined context, which always yields at least one piece |
| `FaqChatbotWithRag.SplitLinesPrefix` | May22/faq_chatbot_with_rag.py:37 | about the inverse `SplitLines`, not code of the script: a newline-free prefix stays part of the first line |
| `FaqChatbotWithRag.SplitJoin` | May22/faq_chatbot_with_rag.py:37 | round trip, for a non-empty list none of whose documents holds a newline: splitting the newline-joined documents at newlines gives them back |
| `FaqChatbotWithRag.Retrieve` | May22/faq_chatbot_with_rag.py:33-37 | a store failure propagates unchanged; otherwise, for every reply, the context is the newline join of the flattened documents (`""` for none); when the list is non-empty and newline-free, the context splits back into exactly those documents |
| `FaqChatbotWithRag.ResponderPrompt` | May22/faq_chatbot_with_rag.py:43 | the prompt is "Context: " + context + "\n\nQuestion: " + query: knowing the query, the context reads back exactly, and knowing the context, so does the query |
| `FaqChatbotWithRag.Respond` | May22/faq_chatbot_with_rag.py:41-44 | succeeds exactly when the model does on that prompt and returns its text untrimmed; a model exception on that prompt is returned unchanged |
| `FaqChatbotWithRag.QueryHandler.Handle` | May22/faq_chatbot_with_rag.py:64-67 | retrieval with the default top_k of 3 comes first; its failure is the answer; otherwise its context goes unchanged to the responder |
| `FaqChatbotWithRag.HandleRetrievalFailureSkipsModel` | May22/faq_chatbot_with_rag.py:64-67 | when retrieval fails, the answer is an exception and does not depend on the model |
| `FaqChatbotWithRag.HandleDependsOnOwnRequest` | May22/faq_chatbot_with_rag.py:64-67 | two stores that answer the query's own request alike give the same answer, so each query sees only its own neighbours |
| `FaqChatbotWithRag.HandleGroundsOnRetrievedDocs` | May22/faq_chatbot_with_rag.py:64-67 | once the store answers, the answer is the model's reply to the prompt over the newline join of the retrieved documents; when they are non-empty and newline-free, that context splits back into exactly them |
| `FaqChatbotWithRag.RoundRobinGroupChat.constructor` | May22/faq_chatbot_with_rag.py:48-50 | a new chat holds the given agents, counter 0, nothing served yet |
| `FaqChatbotWithRag.RoundRobinGroupChat.Chat` | May22/faq_chatbot_with_rag.py:52-56 | empty list: `ZeroDivisionError`, counter unchanged; otherwise it returns exactly `handle(agents[old index % n], query)`, adds one to the counter even when the handler raises, and keeps `Valid()` |
| `WebResearchAssistant.ApiUrl` | May19/web_research_assistant.py:38 | the endpoint is base + model + ":generateContent?key=" + key: unwrapping base and ":generateContent?key=" + key gives back the model for any model; the parser recovers model and key when the model has no ':' |
| `WebResearchAssistant.ParseApiUrl` | May19/web_research_assistant.py:38 | an inverse written for the round-trip lemmas, not code of the script: whatever it accepts is an endpoint URL rebuilt from the model and key it returns |
| `WebResearchAssistant.ApiUrlRoundTrip` | May19/web_research_assistant.py:38 | parsing the endpoint of a model name that holds no ':' gives back that model and key |
| `WebResearchAssistant.PromptOf` | May19/web_research_assistant.py:44-46 | an accessor written to state what the payload carries, not code of the script: a payload has a prompt exactly when it has one content entry with one part |
| `WebResearchAssistant.BuildPayload` | May19/web_research_assistant.py:43-51 | the prompt is the single text part of the single content entry; `maxOutputTokens` is `max_tokens`; temperature 0.7 |
| `WebResearchAssistant.ReadReply` | May19/web_research_assistant.py:55-58 | a status other than 200 raises the API error with status and body; a 200 reply without `candidates` raises `KeyError`; with no candidate or no part it raises `IndexError`; otherwise it returns the first part's text of the first candidate, and only then is there text |
| `WebResearchAssistant.Generate` | May19/web_research_assistant.py:40-58 | one POST of the built payload to the client's endpoint with the JSON content-type header; a transport failure propagates; non-200 raises the API error; a 200 reply yields `KeyError`, `IndexError` or the first part's text exactly as `ReadReply` does |
| `WebResearchAssistant.ShapeInput` | May19/web_research_assistant.py:67-69 | text of at most 3000 characters is kept; longer text becomes its first 3000 characters + "\n\n[Truncated]", 3013 characters |
| `WebResearchAssistant.SummaryPrompt` | May19/web_research_assistant.py:70 | the fixed frame around the prompt unwraps to exactly the shaped text |
| `WebResearchAssistant.IsSpace` | May19/web_research_assistant.py:72 | what `strip()` removes: space, tab, newline and carriage return are whitespace, and no letter, digit or underscore is |
| `WebResearchAssistant.TrimStart` | May19/web_research_assistant.py:72 | the result is a suffix of the input; all it dropped was whitespace; it does not start with whitespace |
| `WebResearchAssistant.TrimEnd` | May19/web_research_assistant.py:72 | the result is a prefix of the input; all it dropped was whitespace; it does not end with whitespace |
| `WebResearchAssistant.Strip` | May19/web_research_assistant.py:72 | the result is a contiguous stretch of the input; everything cut away on both sides is whitespace; it neither starts nor ends with whitespace |
| `WebResearchAssistant.Summarize` | May19/web_research_assistant.py:65-72 | a generation failure propagates; otherwise the summary is the stripped reply to the summary prompt, with no whitespace at either end |
| `WebResearchAssistant.SummarizeRequest` | May19/web_research_assistant.py:65-72 | the summary depends only on the reply to one request: the client's endpoint, with `maxOutputTokens` = `max_tokens` and a prompt whose frame holds the shaped text |
| `WebResearchAssistant.SummarizeRejectsNon200` | May19/web_research_assistant.py:55-56 | a non-200 reply yields no summary, only the API error with its status and body |

`DataAnalysisPipeline.TwoAgentScenario`, `DataAnalysisPipeline.FailingAgentScenario`,
`FaqChatbotWithRag.PopulateFaqScenario` and `FaqChatbotWithRag.SingleHandlerScenario`
are client methods. They drive the model through fixed runs: two agents taking
three turns, a single agent that fails, the indexing of the chatbot's own two
FAQ items, and the chatbot's own single-handler set-up asked both of its queries.

## Left out

- Agents are modelled only through their `step`/`handle` result. What an agent does to its own state (`DataFetcherAgent.df`), to files or to the console is not modelled.
- `asyncio` scheduling, the sleeps and the thread-pool offloading are not modelled. Each await is one sequential step, and concurrent calls to one chat are not considered.
- Selenium page fetching (`AsyncWebBrowser`) is not modelled. The page text is an argument.
- pandas CSV loading and `describe`, matplotlib plotting and PNG writing are not modelled. They work on floats, files and libraries.
- The ChromaDB client and its nearest-neighbour search are not modelled. The query is the `Collection` parameter and the `collection.add` calls are the returned entries. Duplicate ids are handled by the store.
- The Gemini SDK and the HTTP session are not modelled. They are the `Model` and `Transport` parameters.
- `FaqChatbotWithRag.Embed`: the source builds floats. Every value is an integer code point or 0.0, which a float holds exactly, so the model uses `int`.
- `WebResearchAssistant.ReadReply`: only a missing `candidates` key is modelled, as `KeyError`. Missing `content`/`parts`/`text` keys and a body that is not JSON are not modelled. The exception message text is carried as status and body, not as the formatted string.
- Python strings may hold lone surrogate code points (U+D800 to U+DFFF), which a Dafny `char` cannot. `FaqChatbotWithRag.Embed` and `WebResearchAssistant.Strip` are therefore stated only for texts without them.
- `WebResearchAssistant.BuildPayload`: the temperature is the exact rational 0.7, not its binary floating-point value.
- May20 (`main.py`, `agents/coder.py`, `tools/linter.py`, `tools/python_executor.py`) is not part of this model. It consists of an input loop, subprocess calls, `exec` and SDK calls.
- The default arguments `max_tokens=300` and `model="gemini-1.5-flash"` are not modelled as defaults. Every caller passes the token budget and the model name explicitly; only the `main` functions rely on the defaults.
- The `main` functions of the three scripts are not modelled. Their fixed runs appear only as the scenario methods.
- Python lets outside code mutate the agent list in place. The model's list is a value that nobody changes.
