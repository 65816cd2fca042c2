# JadeAgent core, modelled in Dafny

JadeAgent is a family of small LLM assistants. This project models their
deterministic bookkeeping and proves what it guarantees. The model, the JSON
parser, the encoder, the vector store's ranking, the clock and the tools are
oracles or parameters.

- **ShoreStone** (`shorestone.dfy`) is the curated vector memory. A client holds
  named collections; one of them is the active session, and each collection is
  a map from id to record. `memorize` stores one record, with its metadata and
  its snippet document. `remember` is a retrieval that writes: it bumps the
  access metadata of exactly the records it returns.
- **The heuristic curator** (`curator.dfy`) runs a read-score-delete pass. Its
  rules are a population guard, a score threshold and a case-insensitive
  protected-phrase override. The floating-point RFR score is an oracle. The
  model covers the discrete inputs the score is fed: the defaults for missing
  metadata and the choice of neighbours.
- **`slim_history`** (`slim.dfy`) trims a history while pinning its first
  entry. It follows Python's slice semantics exactly, including the `-0`
  slice when `keep == 1`.
- **The J.A.D.E. agent** (`jade_core.dfy`) runs one `respond` turn: recall,
  build the prompt, answer, trim the history, memorize, and on every tenth
  turn run maintenance.
- **CodeJade** (`code_jade.dfy`) runs a ReAct loop of at most five model
  turns. Tool calls are recognised by a greedy brace span, with a fallback
  that strips markdown fences. The dispatcher gates `write_file` behind a
  reviewer. The history is trimmed at the end.
- **The Scholar agent** (`scholar.dfy`) covers:
  - input routing;
  - whitespace normalisation and truncation of extracted text;
  - the voice chosen for each podcast line;
  - quiz grading and its verdict;
  - the short-content abort at the start of a run.

Shared pieces are `wrappers.dfy` (`Option`, `Result`), `text.dfy` (ASCII case
mapping, Python's whitespace class, strip, split, join, substring search) and `chat.dfy`
(chat messages).

Stateful code is modelled as classes:
- `ShoreStoneMemory`, `MemoryCuratorHeuristic`, `JadeAgent`, `CodeJadeAgent`
  and `ScholarGraph`.

Each method's postcondition ties its new state to a pure effect function:
- `StoreEffect`, `RecallEffect`, `AfterMaintenance`, `SlimHistory` and
  `ChatLoopEffect`.

Separate lemmas prove what those functions guarantee.

## Model

| member | source | states |
|---|---|---|
| Slim.SlimHistory | jade3/utils.py:1-5 | A history no longer than `keep` is returned unchanged. A trimmed one keeps the first entry at position 0. For `keep >= 2` the result has exactly `keep` entries, and everything after the head is the last `keep-1` entries of the input, in order. For `keep == 1` the result is the head followed by the whole input. |
| Slim.SlimHistoryIdempotent | jade3/utils.py:3-5 | For `keep >= 2` the result has at most `keep` entries, and trimming twice equals trimming once. |
| Slim.SlimHistoryKeepOneGrows | jade3/utils.py:4 | With `keep == 1`, a history of two or more entries grows by one on every trim, so the function is not idempotent there. |
| ShoreStone.ShoreStoneMemory.constructor | jade3/shorestone.py:19-41 | A new memory has no active collection and holds the persisted collections. |
| ShoreStone.ShoreStoneMemory.LoadOrCreateSession | jade3/shorestone.py:43-50 | The named session becomes active. The client gains that collection if it was missing. |
| ShoreStone.OpenSessionProperties | jade3/shorestone.py:49 | `get_or_create_collection` reopens an existing session with its records intact, or creates it empty. It is idempotent, adds exactly the one name and leaves every other session as it was. |
| ShoreStone.Snippet | jade3/shorestone.py:82 | The document ends in "...". Before that comes a '.'-free prefix of the text, which stops exactly at the text's first '.' when there is one. |
| ShoreStone.SnippetOfMemory | jade3/shorestone.py:67-82 | The snippet of a stored exchange is "O usuário disse: '<u>'..." when the user's words have no '.'. Otherwise it is cut at the user's first '.'. |
| ShoreStone.ShoreStoneMemory.Memorize | jade3/shorestone.py:61-84 | The new client is the store effect: the record built from the exchange, stamped at the call time, is added under the fresh id in the active session. Without a session the client is unchanged. |
| ShoreStone.MemorizeOutcome | jade3/shorestone.py:63-84 | Without a session nothing changes. With one, exactly one record is added, under the fresh id. It has access count 0, equal creation and last-access times (the call time), the exact text "O usuário disse: '<u>'. A IA respondeu: '<r>'", that text's snippet as document, and the computed embedding. Every other record and every other session is unchanged. |
| ShoreStone.Touch | jade3/shorestone.py:105-117 | Access bookkeeping keeps the set of ids of the collection. |
| ShoreStone.RememberBookkeeping | jade3/shorestone.py:106-117 | Each retrieved record's access count goes up by exactly one, with a missing count read as 0. Its last-access time becomes the call time, and its other metadata, document and embedding are kept. Records that were not retrieved are unchanged. |
| ShoreStone.UpdateIsTouch | jade3/shorestone.py:110-117 | Writing back, through `collection.update`, the bumped metadata of distinct retrieved ids is the same as the access bookkeeping on those ids. |
| ShoreStone.ShoreStoneMemory.Remember | jade3/shorestone.py:87-121 | The result is the recall result, and the new client is the recall effect, of the query's answer at the call time. The loop that bumps each metadata entry is proved to build exactly the bumped list. |
| ShoreStone.RememberOutcome | jade3/shorestone.py:91-121 | `remember` returns `None` exactly when there is no session, the collection is empty, or the query answers no ids; in those cases nothing is written. Otherwise it returns the at most `n_results` documents joined by "\n" in ranking order, and applies the access bookkeeping to the active session only. |
| ShoreStone.RememberSingleRecord | jade3/shorestone.py:96-121 | In a one-record session, a non-empty one-result answer is that record, and `remember` returns its snippet. |
| Curator.NearestIndices | jade3/curator_heuristic.py:54 | Reversing the argsort, skipping the top entry and taking the next five gives `min(5, n-1)` indices. The result is empty iff there is at most one record. The k-th index is the (k+2)-th most similar. |
| Curator.NearestAreMostSimilar | jade3/curator_heuristic.py:52-58 | For a true ascending argsort, every chosen neighbour is at least as similar as every index not chosen, except the single top one. |
| Curator.InputDefaults | jade3/curator_heuristic.py:39-60 | A missing access count reads as 0. A missing last-access time reads as now, so no time has elapsed. With at most one record there are no neighbours and G is 0. With two or more, G is the mean similarity over the chosen neighbours. |
| Curator.MarkedMembers | jade3/curator_heuristic.py:91-106 | An id is marked for deletion iff it is listed, scores below `t_delete` and its lower-cased text contains neither "meu criador" nor "gabriel yogi". |
| Curator.MarkedOrder | jade3/curator_heuristic.py:88-106 | The marked ids are a subsequence of the listing (collection order), each listed once. |
| Curator.ThresholdMonotone | jade3/curator_heuristic.py:99-106 | Raising `t_delete`, with the same scores, only marks more ids. |
| Curator.MaintenanceOutcome | jade3/curator_heuristic.py:72-117 | A pass never adds or alters records. With fewer than 10 records it deletes nothing. Otherwise it deletes a record iff the record scores below `t_delete` and is not protected. Protected records, and records scoring at or above `t_delete`, always survive. |
| Curator.ListingSize | jade3/curator_heuristic.py:78-84 | A listing of the collection has exactly one entry per record, so the guard `len(all_mems['ids']) < 10` compares the collection's size. |
| Curator.SurvivorsMonotone | jade3/curator_heuristic.py:99-117 | Raising `t_delete`, with the same scores, only shrinks the set of survivors. |
| Curator.MemoryCuratorHeuristic.RunMaintenanceCycle | jade3/curator_heuristic.py:67-117 | Without a session nothing happens. Otherwise the active collection becomes its after-maintenance state, with every record scored against the same snapshot. `delete` is called once, with the marked ids in listing order, and not at all when there are fewer than 10 records or nothing is marked. `t_archive` has no effect. |
| JadeCore.Prompt | jade3/core.py:78-93 | The prompt is the history, then a system message with the memories iff `remember` returned a non-empty text, then one with the image caption iff there is a non-empty caption, then the user's message. |
| JadeCore.MaintenanceEveryTenth | jade3/core.py:114-115 | A count over the `% 10` rule. The counter starts at 0 and each `respond` adds one (see `JadeAgent.constructor` and `CountAndMaintain`), so the first n turns take the counter values 1..n. Of those, exactly `n / 10` are due for maintenance. |
| JadeCore.MaintenanceEffect | jade3/core.py:114-120 | On a turn whose counter is not a multiple of 10, or whose curator raises (the exception is swallowed), the store is left as it was. Maintenance never adds or removes a session. |
| JadeCore.JadeAgent.constructor | jade3/core.py:33-49 | The history is the system prompt alone, the counter is 0 and the default session is open. |
| JadeCore.JadeAgent.Recall | jade3/core.py:78-93 | The per-call messages are the prompt built from the recall result. The memory's new client is the recall effect. |
| JadeCore.JadeAgent.CountAndMaintain | jade3/core.py:113-120 | The counter goes up by exactly one. The store is changed only by the maintenance effect, which is a pass on the active collection exactly when the new count is a multiple of 10 and the curator does not raise. A raising curator changes nothing, and the turn still completes. |
| JadeCore.JadeAgent.Respond | jade3/core.py:75-122 | The counter goes up by one. The reply is the model's answer to the prompt. The new history is `slim_history(old + [user, assistant], cfg.get("max_context", 12))`: a configured value, 0 included, is used as it is. Memory and vision context never enter the history. The store goes through recall, then exactly one `memorize` of `(user_input, reply)`, then the maintenance effect. |
| CodeJade.BraceSpan | code_jade/core.py:90-94 | A found span is at least two characters long, starts with '{' and ends with '}'. |
| CodeJade.BraceSpanCharacterised | code_jade/core.py:90-94 | There is no span iff no '{' comes before a '}'. Otherwise the span runs from the first '{' to the last '}', greedily. |
| CodeJade.BraceSpanOfEmbedded | code_jade/core.py:90-94 | An object between brace-free prose is extracted exactly. |
| CodeJade.StripFences | code_jade/core.py:105 | Removing "```json" and "```" never lengthens the text and leaves text without backticks unchanged. No "```" is left in the result, and a text that does not start with a backtick keeps its first character. |
| CodeJade.ProcessToolCall | code_jade/core.py:81-115 | A recognised tool call always has a "tool" key. |
| CodeJade.ProcessToolCallPaths | code_jade/core.py:86-115 | With no span there is no tool call. A span that parses is accepted iff it has both "tool" and "args". A span that fails to parse falls back to the fence-stripped text, where "tool" alone suffices. |
| CodeJade.ToolCallRecognised | code_jade/core.py:90-100 | A well-formed call written between brace-free prose is recognised as exactly that call. |
| CodeJade.PlainTextIsNoToolCall | code_jade/core.py:90-92 | Text with no '{' is never a tool call. |
| CodeJade.Gate | code_jade/core.py:124-139 | `write_file` is refused iff the reviewer's status is exactly "REJECTED". Otherwise the write goes ahead with the given path and content. |
| CodeJade.Plan | code_jade/core.py:117-150 | A missing "tool" or "args" raises. A tool is invoked only for one of the five known names. |
| CodeJade.PlanDispatch | code_jade/core.py:141-150 | Each name reaches its own tool with the argument it names; `list_files` defaults its path to ".". An unknown name answers "❌ Ferramenta desconhecida: <name>" and invokes nothing. A known name with non-object args raises. |
| CodeJade.WriteFileGate | code_jade/core.py:124-139 | `write_file` is blocked only for status "REJECTED"; any other status, "ERROR" included, writes. A refusal invokes nothing and reports the feedback, which defaults to "Sem detalhes.". |
| CodeJade.Perform | code_jade/tools.py:20-115 | A tool raises a `TypeError` on a file path that is not a string, on a missing `write_file` content, and on `run_python` code that is not a string. `list_files` never raises; an exception of its shell call becomes "❌ Erro ao listar arquivos: …". Any other call returns what the tool does, an exception from its confirmation included. |
| CodeJade.RunTool | code_jade/core.py:117-150 | `run_tool` raises exactly when dispatch raises or the invoked tool raises. An answer without a tool is returned as is. |
| CodeJade.MissingArgumentRaises | code_jade/core.py:139-148 | A `read_file` without "filepath" or a `run_python` without "code" raises out of `run_tool` whatever the tools do. So does a `write_file` without "content" that the reviewer lets through. `list_files` never raises. |
| CodeJade.TurnMessages | code_jade/core.py:184-192 | A tool turn appends the assistant's response, then a system message. A text turn appends only the assistant's response. |
| CodeJade.Run | code_jade/core.py:167-193 | A run from turn t has at most `5 - t` turns. |
| CodeJade.RunShape | code_jade/core.py:170-198 | Every turn but the last is a tool turn. A crash comes before the turns run out. A loop with only tool turns has used all five and returns "". |
| CodeJade.RunToolsFirst | code_jade/core.py:172-193 | Every turn of a run but the last is a tool turn, since a text turn ends the loop. |
| CodeJade.RunCrashesEarly | code_jade/core.py:172-188 | A run that raises has taken only tool turns, and fewer than the turns it had left. |
| CodeJade.RunExhausted | code_jade/core.py:167-198 | A finished run with only tool turns has used every remaining turn and returns "", the initial `final_response`. |
| CodeJade.RunEndsWithReply | code_jade/core.py:189-198 | A loop ending in a text turn returns that turn's response. |
| CodeJade.RunCalls | code_jade/core.py:167-188 | The model is called at most five times per `chat_loop`. |
| CodeJade.FlattenLength | code_jade/core.py:184-192 | The history grows by two messages per tool turn and by one for the final text turn. |
| CodeJade.CodeJadeAgent.constructor | code_jade/core.py:15-49 | The history is the system prompt alone. The context size is the configured one, or 20. |
| CodeJade.CodeJadeAgent.ManageMemory | code_jade/core.py:152-158 | The new history is `slim_history` of the old one with the configured context size. |
| CodeJade.CodeJadeAgent.ChatLoop | code_jade/core.py:160-198 | The result and the new history are `ChatLoopEffect` of the old history and the turns `env` takes. The user's message is appended and the loop runs. A finished loop trims the history and returns the reply. An exception from `run_tool`, a raising tool included, is returned with the history untrimmed. |
| CodeJade.Turns | code_jade/core.py:167-193 | The loop leaves the history and the reply, or the exception, that `Loop` gives turn by turn. The history stays non-empty. |
| CodeJade.TakeTurn | code_jade/core.py:173-193 | One iteration calls the model on the current history. A response that is no tool call is the reply. Otherwise the tool runs, and the outcome is either its exception or a tool turn carrying the call's "tool" and the result. This is exactly the turn function's move. |
| CodeJade.LoopIsRun | code_jade/core.py:172-193 | The loop's outcome is the run's, after the turns already taken. Its history is the starting one followed by the messages of every turn of the run. |
| CodeJade.ChatLoopEffectIsRun | code_jade/core.py:160-198 | `chat_loop` in terms of the run from turn 0. The history gains the user's message and every turn's messages. A finished run returns its reply and trims; a crashed run returns the exception untrimmed. |
| Scholar.CollapseShape | JadeScholar/scholar_graph.py:71 | After `re.sub(r'\s+', ' ', …)` every whitespace character is a blank and no two are adjacent. The non-whitespace characters are kept in order. The result starts with whitespace iff the input does. |
| Scholar.CleanTextIsJoin | JadeScholar/scholar_graph.py:71 | Cleaning equals `" ".join(text.split())`: the input's maximal non-whitespace runs, in order, each pair separated by exactly one blank. |
| Scholar.CollapseFixed | JadeScholar/scholar_graph.py:71 | Text whose only whitespace is single blanks is left unchanged by the collapse. |
| Scholar.CleanTextProperties | JadeScholar/scholar_graph.py:71 | Cleaned text has no whitespace at either end, only blanks, no run of two whitespace characters, and exactly the input's non-whitespace characters. |
| Scholar.CleanTextIdempotent | JadeScholar/scholar_graph.py:71 | Cleaning twice equals cleaning once. |
| Scholar.ScrapeWebBounded | JadeScholar/scholar_graph.py:89-91 | Scraped text is at most 20000 characters and is a prefix of the cleaned page; it is the whole page when that fits. It starts with no whitespace and has no runs. |
| Scholar.ErrorsPassTheLengthCheck | JadeScholar/scholar_graph.py:73-93 | The error texts of `read_pdf` and `scrape_web` are at least 10 characters long, so `run` takes them as content. |
| Scholar.RouteCases | JadeScholar/scholar_graph.py:164-170 | An input goes to the PDF reader iff its lower-cased form ends in ".pdf" and the path exists. An "HTTP…" input is not sent to the web. A missing file falls through. Web iff the input starts with "http" and is not a PDF route. Plain iff it is neither, so every input takes exactly the branch the `if`/`elif`/`else` gives it. |
| Scholar.RouteExtensionIgnoresCase | JadeScholar/scholar_graph.py:165-167 | Inputs equal up to case, and alike in starting with "http", are routed alike. |
| Scholar.Ingest | JadeScholar/scholar_graph.py:164-170 | A PDF route returns `read_pdf`'s text, a web route returns `scrape_web`'s text, and plain input is returned unchanged as the content. |
| Scholar.VoiceChoice | JadeScholar/scholar_graph.py:102-111 | The voice ignores the speaker's case. It is pt-PT iff the upper-cased name contains "BERTA" or "PROFESSORA". |
| Scholar.NarratorVoice | JadeScholar/scholar_graph.py:102-111 | A line without a speaker is read as "Narrador", in the pt-BR voice. |
| Scholar.GenerateAudioMix | JadeScholar/scholar_graph.py:96-111 | One speech request per script line, in order. Each uses its speaker's voice and its text, or "" when the text is missing. |
| Scholar.AnswerLetterOfStrip | JadeScholar/scholar_graph.py:257-261 | The graded letter is "X" for an answer that strips to nothing. Otherwise it is the upper-cased first character of the stripped, upper-cased answer. |
| Scholar.Grade | JadeScholar/scholar_graph.py:257-263 | Grading raises exactly when the correct option is empty. Otherwise it reports whether the answer's letter equals the upper-cased first letter of the correct option. |
| Scholar.BlankAnswer | JadeScholar/scholar_graph.py:261-263 | A blank answer is right exactly when the correct option starts with 'x' or 'X'. |
| Scholar.CountCorrectExtremes | JadeScholar/scholar_graph.py:252-265 | The score is full iff every question is answered correctly, and zero iff none is. |
| Scholar.VerdictMonotone | JadeScholar/scholar_graph.py:271-277 | Perfect iff the score is full. "Study more" iff `2*score < len`. A higher score never gets a worse verdict. |
| Scholar.InteractiveSession | JadeScholar/scholar_graph.py:245-277 | The session completes iff every correct option is non-empty. A completed session reports the number of correctly answered questions, out of the quiz length, with the matching verdict. |
| Scholar.ScholarGraph.Start | JadeScholar/scholar_graph.py:315-325 | An empty stripped target ends the run before ingestion. Otherwise the ingested content is stored, and the run goes on iff it has at least 10 characters. |

## Left out

- Oracles and parameters:
  - The language model is a function from messages to text. `_chat`'s stripping and its apology on API errors are inside that function.
  - The sentence encoder and PCA are function values.
  - ChromaDB's nearest-neighbour ranking is a parameter. It is constrained to distinct ids of the collection, at most `n_results` of them.
  - `json.loads` is a partial function from text to an object. The reviewer is a function returning a dict.
  - What a tool does with arguments it accepts is a function of the turn and the call. It returns an output or an exception (the console confirmation's `input()` may raise). Argument faults are modelled, not left to that function.
  - `uuid4()` and `time.time()` are parameters. Timestamps are integers, and the freshness of the id is a precondition.
- CodeJade.Perform: a `write_file` content that is neither a string nor an object, such as a list or a number, is left to the tools function. `len()` accepts a list but raises on a number.
- Floating point: the RFR score (`np.log`, `np.exp`, `cosine_similarity`, `np.mean` and the weighted sum) is an uninterpreted function. Thresholds are reals.
- Curator.MemoryCuratorHeuristic.RunMaintenanceCycle: every score reads the same `now`, while the source reads the clock once per record. Exceptions inside the pass are not modelled.
- JadeCore.JadeAgent.CountAndMaintain: a raising curator is modelled as raising before any deletion. A failure after `delete` has started is not modelled.
- Persistence to disk, logging, `print`, the console prompts, `time.sleep` and speech output (gTTS, pydub mixing, IPython display) are I/O.
- Scholar.InteractiveSession: every quiz entry is assumed to carry the keys "question", "options", "correct_option" and "explanation" as strings. A missing key (a `KeyError`) is not modelled; an empty correct option is.
- Scholar.GenerateAudioMix: speaker and text values are assumed to be strings when present. Synthesis, the mp3 round trip and its per-segment error handling are not modelled.
- Scholar.ScrapeWebBounded: the truncated text may end with a blank when the cut falls right after one. That is what the source does, so no "no trailing whitespace" property is claimed for it.
- Case mapping is ASCII: `lower()`/`upper()` map only A–Z and a–z; Unicode case mapping is not modelled. Whitespace, for `\s`, `strip()` and `split()`, is the full set for which `str.isspace()` holds: U+0009–U+000D, U+001C–U+0020, U+0085, U+00A0, U+1680, U+2000–U+200A, U+2028, U+2029, U+202F, U+205F and U+3000.
- Slim.SlimHistory: its precondition leaves out an empty history with a negative `keep`. There `hist[0]` raises `IndexError` (jade3/utils.py:4). Its one caller, `JadeAgent.respond` (jade3/core.py:100), trims a history it has just appended two messages to, so that input never reaches it.
- The rest of `ScholarGraph.run` is not modelled: the API-key prompt, the menu loop, and the summary, script and quiz generation, which are single LLM calls.
- Of `code_jade/tools.py`, only the argument handling is modelled (CodeJade.Perform); file, shell and subprocess effects are the tools function. `code_jade/reviewer.py`, `code_jade/main.py`, `jade/`, `jade3/handlers.py` and `jade3/tts.py` are not part of this model. They are I/O, LLM wrappers or REPL loops.
