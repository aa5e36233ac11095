# ChatAgents search and chat core, modelled in Dafny

ChatAgents holds small Python chat programs. The programs answer questions with the help of web and encyclopedia searches.
This project models their shared core:

- the **token-budgeted accumulation** of search results. The `web_search` of the two chat programs (openai_streaming_functions.py:71, openai_functions.py:23) and `wikipedia_search` format each result as a block. It adds the block's token count to a running total and stops at the first block that would push the total past `max_tokens`. Modules `Budget` and `Search` cover it.
- **`call_api`**, the completion client with retry and backoff. A failure mentioning "maximum context length" trims the conversation and retries at once. Any other failure counts against a budget of seven, with sleeps of `2 ** (retry - 1) * 5` seconds in between. The seventh counted failure is re-raised. Module `Retry` covers it.
- the research agent's **relevance-gated `web_search`**. Each DuckDuckGo hit is put to the completion service as a YES/NO question. `combine_results` merges each accepted hit into the running result. Module `Relevance` covers it.
- the streaming chat program's **turn**. It folds the streamed chunks into the reply text and the requested function name. It then records the answer, or runs the requested tool and records the tool's output. Module `Stream` covers it.
- the function-calling chat program's **turn and message history**. Module `Dialogue` covers it.

All external capabilities become parameters of the model:

- `token_count` (tiktoken) is the function `count: string -> nat`.
- DuckDuckGo is the list of hits it yields for a query.
- Wikipedia is a title search plus a page lookup that yields a page or one of the two errors the code catches.
- The completion service is a script `nat -> ApiOutcome` indexed by call number, or a function from the conversation to its completion.
- `json.loads(arguments)['query']` is a function from the argument text to the query.
- Sleeps are recorded rather than performed.

Each of the three defects under Findings is modelled twice: once as written, and once corrected. `Stream.AfterStream` takes the dispatch rule as a parameter and states the turn under both rules.

## Model

| member | source | states |
|---|---|---|
| Budget.KeptFrom | openai_streaming_functions.py:76-80 | Continuing the loop after `i` kept entries stops at some `k >= i` at which the kept prefix fits the budget and the next entry would overflow it |
| Budget.Kept | openai_streaming_functions.py:63-66 | The number of entries kept is a `k` such that the first `k` entries' total fits `max_tokens` (or `k` is 0), and `k` is the whole list or the first `k+1` entries' total exceeds it |
| Budget.KeptUnique | openai_streaming_functions.py:63-66 | Those two conditions determine the kept count: any `k` meeting them equals `Kept` |
| Budget.Accumulate | openai_streaming_functions.py:72-81 | The loop's `results` is the concatenation, in order, of exactly the entries up to the first budget overflow, and equals the reference `Accumulated` |
| Budget.LaterEntriesIgnored | openai_streaming_functions.py:78-79 | Once a prefix overflows, appending any further entries changes neither the kept count nor the text (`break` is final) |
| Budget.SmallLaterEntryExcluded | openai_streaming_functions.py:77-80 | An oversized first entry yields the empty text even when a later entry alone would fit: the total is not rolled back before `break` |
| Search.WebEntries | openai_streaming_functions.py:76 | One block per hit, in hit order, each `"\nTITLE: "+title+"\nURL: "+href+"\n"+body+"\n"` |
| Search.WebSearch | openai_streaming_functions.py:71-81 | The result is the concatenation of the first `k` hit blocks for the `k` at which the budget stops; the same function serves openai_functions.py:23-35 |
| Search.WebSearchWithinBudget | openai_streaming_functions.py:77-80 | For a non-negative budget, the token total of the kept blocks never exceeds `max_tokens` |
| Search.WikiQuery | openai_streaming_functions.py:55 | The query sent to the title search is the prefix of at most 300 characters |
| Search.WikiQueryTruncated | openai_streaming_functions.py:55 | Characters beyond the 300th never change the result of `wikipedia_search` |
| Search.WikiEntries | openai_streaming_functions.py:55-62 | At most one block per title, since failed lookups produce none |
| Search.AllFoundAllKept | openai_streaming_functions.py:55-62 | When every page lookup succeeds there is exactly one block per title |
| Search.FoundLookupKept | openai_streaming_functions.py:58-66 | A title whose page is found contributes its `"\nTITLE: "+title+"\nURL: "+url+"\n"+summary+"\n"` block, after the blocks of the earlier titles and before those of the later ones |
| Search.FailedLookupSkipped | openai_streaming_functions.py:57-60 | A title whose page lookup raises PageError or DisambiguationError contributes nothing and uses no budget |
| Search.WikiEntriesFromPages | openai_streaming_functions.py:58-62 | Every block produced comes from a title whose page lookup succeeded |
| Search.WikipediaSearch | openai_streaming_functions.py:52-68 | The result is the budget-stopped prefix of the successful pages' blocks, in title order, for the truncated query |
| Retry.BackoffSchedule | openai_streaming_functions.py:104-108 | After `n` counted failures the sleeps were `5 * 2^(k)` seconds for `k = 0..n-1`, in order |
| Retry.Trim | openai_streaming_functions.py:100-103 | Trimming succeeds exactly when the payload is a non-empty message list, and it strictly shrinks the payload; otherwise it raises KeyError on a single (dict) message and IndexError on an empty list |
| Retry.Loop | openai_streaming_functions.py:87-108 | From any state, the loop returns the first completion with its counted failures fewer than seven, or raises: the service error at the seventh counted failure, or a trim error after a context-length failure; every earlier call failed |
| Retry.CallApi | openai_streaming_functions.py:84-108 | At least one call is made and all but the last failed; a return carries the last call's completion and one sleep per counted failure; sleeps are 5, 10, 20, ...; a re-raised service error is the last call's non-context-length message after exactly seven counted failures (web_research_agent.py:79-103 is the same function) |
| Retry.CallApiAsWritten | openai_streaming_functions.py:84-108 | The same loop with `msgs = msgs.pop(0)`: all but the last call failed; a return carries the last completion and one sleep per counted failure; sleeps are 5, 10, 20, ...; a re-raised service error is the last call's non-context-length message after exactly seven counted failures |
| Basics.ContainsAt | openai_streaming_functions.py:100 | An occurrence of the marker at any position makes the `in` test true |
| Basics.ContainsOccurs | openai_streaming_functions.py:100 | The `in` test is true only when the marker occurs at some position |
| Retry.ExhaustedSleeps | openai_streaming_functions.py:104-108 | When the retry budget is exhausted the program slept exactly 5, 10, 20, 40, 80 and 160 seconds |
| Retry.CallApiDropsOldest | openai_streaming_functions.py:100-103 | With the corrected trim, a successful call sends the original messages minus as many oldest ones as there were context-length failures; KeyError never escapes, and IndexError only once every message has been dropped |
| Retry.CallApiAsWrittenKeepsOneMessage | openai_streaming_functions.py:101 | As written, a successful call after one context-length failure sends the single removed (oldest) message instead of a list, and a trim error after exactly two such failures is KeyError and no other KeyError arises |
| Retry.PopReplacesList | openai_streaming_functions.py:100-103 | Two messages and one overflow: as written the retry sends only the first message; corrected it sends the list holding the second |
| Retry.SecondOverflowRaises | openai_streaming_functions.py:100-103 | Three messages and two overflows: as written the second trim raises KeyError; corrected the third call succeeds with the last message |
| Stream.FinishIndex | openai_streaming_functions.py:137-140 | The fold stops at the first chunk with a finish reason; all earlier chunks have none |
| Stream.ApplyDelta | openai_streaming_functions.py:142-148 | A chunk appends its function-call arguments and then its non-empty content, and a delta carrying a name replaces the function name |
| Stream.CollectStream | openai_streaming_functions.py:134-156 | The reply text is the concatenation of the argument and content fragments of the chunks before the finish, and the name is the last one announced before it |
| Stream.FinishIgnoresRest | openai_streaming_functions.py:139-140 | Chunks after the first finish reason never influence the reply |
| Stream.DispatchAsWritten | openai_streaming_functions.py:161-169 | As written, the dispatch succeeds exactly for `wikipedia_search`, returning the 1000-token Wikipedia search of the query; every other name, `web_search` included, raises "invalid function name" |
| Stream.Dispatch | openai_streaming_functions.py:161-169 | With `elif`, `web_search` returns the 1000-token web search and `wikipedia_search` the 1000-token Wikipedia search of the query; any other name raises "invalid function name" |
| Stream.WebSearchFallsThrough | openai_streaming_functions.py:162-169 | `web_search` raises as written but yields the 1000-token web search corrected; the two dispatches agree on every other name |
| Stream.AfterStream | openai_streaming_functions.py:158-172 | The conversation grows by exactly one message, keeping the earlier ones: the assistant's text when no function was named, else a function message named after the tool holding the tool's 1000-token output. As written it raises exactly for names other than `wikipedia_search`, `web_search` included; with `elif` it raises exactly for names other than the two tools |
| Stream.ReadUser | openai_streaming_functions.py:127-131 | A user message is appended exactly when no function call is pending and the line is non-empty; nothing else changes |
| Relevance.IsYes | web_research_agent.py:65 | A verdict is accepted exactly when the reply is the three letters y, e, s in any case |
| Relevance.OnlyBareYesAccepted | web_research_agent.py:65 | "yes", "YES" and "Yes" are accepted; "Yes.", "yes!", " yes" and "Yes, it is relevant" are rejected |
| Relevance.JudgeMessages | web_research_agent.py:51-63 | The judge request is one system message containing the query, title, URL and body in that order |
| Relevance.CombineMessages | web_research_agent.py:21-40 | The merge request is one system message containing the query, the current result and the new result in that order |
| Relevance.Examine | web_research_agent.py:64-71 | One hit is always counted; a rejected hit leaves the result unchanged; an accepted one replaces it by the merge reply; a failed judge or merge call raises |
| Relevance.Fold | web_research_agent.py:50-71 | The fold of the loop body over all the given hits, with no limit, judges every hit when it returns |
| Relevance.FoldMeaning | web_research_agent.py:64-71 | The fold raises exactly when some hit's judge call fails, or its merge call fails after a yes; otherwise its result is the accepted hits' bodies merged in order into "", with one `combine_results` call per accepted hit |
| Relevance.FoldErrPersists | web_research_agent.py:64 | An exception from the completion service ends the search: further hits change neither the outcome nor the error |
| Relevance.SearchLoopAsWritten | web_research_agent.py:50-73 | The loop as written, resumed after any number of examined hits within the limit, ends with the fold over exactly the first `min(len(hits), max_results + 1)` hits, error included |
| Relevance.ResearchSearchAsWritten | web_research_agent.py:46-76 | `web_search` as written yields the fold over exactly the first `min(len(hits), max_results + 1)` hits, error included, and on return has judged that many |
| Relevance.SearchLoop | web_research_agent.py:50-73 | The corrected loop ends with the fold over exactly the first `min(len(hits), max_results)` hits, error included |
| Relevance.ResearchSearch | web_research_agent.py:46-76 | Corrected `web_search` yields the fold over exactly the first `min(len(hits), max_results)` hits, so on return at most `max_results` hits were judged |
| Relevance.SearchesMeaning | web_research_agent.py:46-76 | Each version raises exactly when a needed call fails among the hits it examines; otherwise it returns the accepted ones among them merged in order, with one merge call each and "" when none was accepted |
| Relevance.AnsweringServiceReturns | web_research_agent.py:41-73 | When every completion call answers, both versions of `web_search` return instead of raising |
| Relevance.OneHitTooMany | web_research_agent.py:71-73 | With three hits, a limit of one and a judge that always says no, the code as written judges two hits and the corrected loop one |
| Dialogue.Turn | openai_functions.py:65-92 | An empty line changes nothing. Otherwise the history grows by two messages, or by three when a function is called, and keeps its old messages as a prefix; the last message is the completion of everything before it; a `web_search` call inserts its 2000-token output as a system message; any other call raises |
| Dialogue.ConversationKeepsPrefix | openai_functions.py:65-92 | Turns only append: the history so far is a prefix of every later history |
| Dialogue.SystemPromptStaysFirst | openai_functions.py:61-69 | Whatever the user types, the system prompt stays the first message |

## Left out

- The network, tiktoken, DuckDuckGo, Wikipedia and the OpenAI client are parameters of the model, and nothing here says how they behave. Exceptions they raise other than those the code handles are not modelled. That includes exceptions from `wikipedia.page` other than PageError and DisambiguationError, and failures of `ddgs.text`.
- `print`, `input`, `sleep`, the clock and the time zone are not modelled. Sleeps are returned as a list of durations. User input is an argument.
- `json.loads` of the function-call arguments and the `params['query']` lookup are not modelled in either chat program. In the streaming program (openai_streaming_functions.py:161) they are a parameter `queryOf`. In openai_functions.py:78-81 `Dialogue.Turn` receives the call with its query already parsed. A malformed argument string, which would raise, is not modelled.
- The streaming program's request `[system_message] + messages`, and the call into `call_api` that produces the stream, are not composed with the chunk fold. The fold takes the chunks as given.
- The `first_line` bookkeeping in the chunk fold (openai_streaming_functions.py:149-156) only prints and is not modelled.
- Relevance.IsYes: `str.lower` is modelled on ASCII letters only. Other characters are left unchanged, which cannot turn a reply into "yes" or out of it.
- Retry.IsContextLengthError classifies a failure by the substring test on its message. The message is the `str(api_err)` of the exception, which the model takes as given.
- Retry.CallApiAsWritten: its contract does not describe the message payload. Retry.CallApiAsWrittenKeepsOneMessage states that separately.
- Relevance.ResearchSearchAsWritten: the default `max_results = 100` is not modelled. The limit is always passed explicitly.
- In openai_functions.py the OpenAI calls are not wrapped in `call_api`, so their failures simply raise. `Dialogue.Turn` takes the completion as a total function and does not model those failures.
- The `functions` schema lists and the system prompt texts are not modelled. They are payloads for the service, and the prompt is an argument of `Dialogue.InitialHistory`.
- The other programs in the repository (autogpt.py, chat.py, conversational_agent.py, plan_and_exec_agent.py) are not part of this model.

## Findings

| source | as written | input that shows it | evidently intended | confidence | as-written member | corrected member |
|---|---|---|---|---|---|---|
| openai_streaming_functions.py:101 (and web_research_agent.py:96) | `msgs = msgs.pop(0)` rebinds `msgs` to the removed message | messages `[a, b]`, first call fails with "maximum context length": the retry sends the single dictionary `a`; a second such failure raises KeyError | drop the oldest message and retry with the remaining list | high, not executed | Retry.CallApiAsWritten (Retry.PopReplacesList, Retry.SecondOverflowRaises) | Retry.CallApi (Retry.CallApiDropsOldest) |
| openai_streaming_functions.py:162-169 | `if function_name == "web_search"` is followed by a separate `if`/`else` on `wikipedia_search` | function name `web_search`: the web search runs, then the `else` raises "invalid function name web_search" | `elif`, so that `web_search` returns its output | high, not executed | Stream.DispatchAsWritten (Stream.WebSearchFallsThrough, Stream.AfterStream with SeparateIfs) | Stream.Dispatch (Stream.AfterStream with Elif) |
| web_research_agent.py:71-73 | `count` is incremented after judging and the loop breaks only when `count > max_results` | `max_results = 1`, three hits: two hits are judged, and each could be merged | judge and merge at most `max_results` hits | medium, not executed | Relevance.ResearchSearchAsWritten (Relevance.OneHitTooMany) | Relevance.ResearchSearch |
