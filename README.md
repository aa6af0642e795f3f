# Greek Derby RAG chatbot: a Dafny model

This project models the core of a Greek-language chatbot about the Olympiakos–Panathinaikos derby. The chatbot answers with retrieval-augmented generation over a Pinecone index. The model covers four parts of the system:

- **The chatbot** (`chatbot.dfy`, `GreekDerbyChatbot`). It keeps two logs: the LangChain message memory and the structured conversation history. `chat` appends to them, and `clear_memory` empties them. The memory summary and the statistics text are derived from the history. Start-up checks the required environment variables and decides whether to seed the knowledge base.
- **The HTTP API** (`api.dfy`). It has one global chatbot, which may be missing. Endpoints answer with either a body or an `HTTPException`. The `/stats` endpoint parses the chatbot's statistics text line by line, and the model shows what that parse yields on the chatbot's own text.
- **The health monitor** (`monitor.dfy`, `VectorDBMonitor`). It reports on the updater's two log files: whether they exist, their size and the last completed update. It collects the recent `ERROR`/`FAILED` lines, combines these with the database check into a health status, and maps that status to the script's exit code.
- **The vector-store updater** (`updater.dfy`, `VectorDBUpdater`):
  - which scraped documents it keeps;
  - when it reloads a page without CSS selectors;
  - when it falls back to a plain HTTP request;
  - how it tags chunks in place before storing them;
  - when an update cycle counts as a success.

`text.dfy` holds the Python string operations the four parts rely on: `str.isspace`, `str.strip`, the `in` operator, `str.split`, `str.find`, `int(str)`, `str(int)` and `{:,}`. `wrappers.dfy` holds `Option` and `Result`.

Some parts of the system are not modelled as code and enter as parameters instead:

- the language model and the retriever;
- the web loader;
- the fallback HTTP request;
- the text splitter;
- the vector store;
- the clock and `strptime`;
- the environment and the file system.

A `Generation` value is what retrieval and generation produced for one question, or the message of the exception they raised. A `Loader` is the web loader, a `LogFile` is a log file on disk, and so on.

A few behaviours of the code are worth stating up front:

- **Retrieval failure.** Any exception raised by retrieval or generation becomes the reply `"Σφάλμα: " + message` (`Chat`).
- **Failed generation.** The question and the error reply are still added to the message memory; only the conversation history is left unchanged.
- **Statistics.** The chatbot's statistics text has the count, the character total and two averages. `/stats` therefore always reports both dates as "Unknown", and it reports 0 answers (`Api.StatsOfChatbot`).
- **Empty questions.** The API rejects them (`Api.ChatEndpoint`); `chat` itself accepts any text.
- **The 50-character minimum.** It applies to scraped documents before splitting (`Updater.ValidDocs`), not to chunks.

## Model

| member | source | states |
|---|---|---|
| Chatbot.GreekDerbyChatbot.constructor | greek_derby_chatbot.py:138-141 | Both the message memory and the conversation history start empty. |
| Chatbot.GreekDerbyChatbot.Chat | greek_derby_chatbot.py:229-270 | Both outcomes append the question and the reply to the message memory, and the memory invariant (`Valid`) is kept. An answered question returns the model's answer and appends exactly one history entry (timestamp, question, answer, context sources). A raised exception returns `"Σφάλμα: " + message` and leaves the history unchanged. |
| Chatbot.ContextSources | greek_derby_chatbot.py:261 | There is one source per retrieved document, in order. It is the document's `source` metadata, or `"unknown"` when that key is absent. |
| Chatbot.GreekDerbyChatbot.ClearMemory | greek_derby_chatbot.py:276-280 | Both logs become empty and the invariant is restored. |
| Chatbot.GreekDerbyChatbot.ConversationHistory | greek_derby_chatbot.py:272-274 | For a valid chatbot, the history returned has at most one entry per two memory messages, and every entry's question and answer are in the message memory. |
| Chatbot.GreekDerbyChatbot.Stats | greek_derby_chatbot.py:304-320 | `get_stats()` gives the fixed "no conversation yet" text if and only if the conversation history is empty. |
| Chatbot.GreekDerbyChatbot.MemorySummary | greek_derby_chatbot.py:282-292 | The string built by the loop equals `Summary(history)`: the count header, then a question line and an answer line per entry. |
| Chatbot.Preview | greek_derby_chatbot.py:289-290 | `s[:50]` is a prefix of `s` of length `min(|s|, 50)`. |
| Chatbot.EntryLines | greek_derby_chatbot.py:288-290 | Entry `i` gives line `2i`, the question numbered `first + i`, and line `2i+1`, its answer. |
| Chatbot.EntryLinesAppend | greek_derby_chatbot.py:288-290 | The lines of a concatenated history are the lines of each part, and the second part is numbered on from where the first stopped. |
| Chatbot.NextSummaryLines | greek_derby_chatbot.py:288-290 | One loop iteration adds exactly the question line and the answer line of the next entry. |
| Chatbot.SummaryEmptyIff | greek_derby_chatbot.py:284-285 | The summary is the fixed "no history" text if and only if the history is empty. |
| Chatbot.SummaryLayout | greek_derby_chatbot.py:282-292 | When no preview holds a line break, the summary splits on `\n` into exactly the rendered header, the question and answer lines, and a final empty piece. |
| Chatbot.TotalChars | greek_derby_chatbot.py:310 | The character total bounds every entry's question plus answer length, and it is 0 exactly when every question and answer is empty. |
| Chatbot.TotalCharsAppend | greek_derby_chatbot.py:310 | The character total of questions plus answers is additive over the history. |
| Chatbot.StatsText | greek_derby_chatbot.py:304-320 | The statistics text is the fixed "no conversation yet" text if and only if the history is empty. |
| Chatbot.MissingVars | greek_derby_chatbot.py:67-68 | A variable is reported missing exactly when it is listed and unset or empty. |
| Chatbot.MissingVarsAppend | greek_derby_chatbot.py:68 | The missing variables keep the order of the list. |
| Chatbot.LoadEnvironment | greek_derby_chatbot.py:58-75 | Start-up goes on if and only if all three required variables are set and non-empty. Otherwise it exits with status 1 and names exactly the missing ones, in order. |
| Chatbot.StartupPassesWithoutOpenedIndexName | greek_derby_chatbot.py:67-93 | Some environment passes the start-up check while `PINECONE_INDEX_NAME` is unset: that check covers `PINECONE_GREEK_DERBY_INDEX_NAME`, but the index opened is named by `PINECONE_INDEX_NAME`. |
| Chatbot.LoadKnowledgeBase | greek_derby_chatbot.py:165-173 | Sample content is created if and only if the index holds no vectors. Otherwise the existing vectors are used. |
| Api.ChatEndpoint | backend/api/greek_derby_api.py:116-137 | With no chatbot the result is 500 "Chatbot not initialized". An empty or whitespace-only question gives 400, and the chatbot is left untouched. Otherwise the response is the chatbot's reply with conversation id "default", and the chatbot's logs change exactly as `Chat` states. |
| Api.StripBlank | backend/api/greek_derby_api.py:122 | `not question.strip()` holds exactly for the empty and whitespace-only questions. |
| Api.HistoryEndpoint | backend/api/greek_derby_api.py:140-150 | With no chatbot the result is 500 "Chatbot not initialized". An empty history gives an empty list with `total_messages` 0. Any non-empty history gives 500 "Error getting history: " followed by the validation error, because building `ConversationHistory` inside the `try` rejects it. |
| Api.ValidatesIffEmpty | backend/api/greek_derby_api.py:36-38 | A history passes as `List[Dict[str, str]]` if and only if it is empty, because every entry's `context_sources` is a list and not a string. |
| Api.StatsEndpoint | backend/api/greek_derby_api.py:153-191 | With no chatbot the result is 500. Otherwise it is the parse of the chatbot's statistics text, or 500 "Error getting stats: " with the parser's error. |
| Api.ParseStats | backend/api/greek_derby_api.py:162-182 | The loop over the lines, with its four variables and its early exit on `IndexError`, computes the specification `ParseLines` over `stats.split("\n")` from the defaults. |
| Api.ParseStep | backend/api/greek_derby_api.py:168-182 | One line raises if and only if it is a start or last-activity line without a colon. The error is "list index out of range". |
| Api.ParseStepFrame | backend/api/greek_derby_api.py:168-182 | A line changes no field other than the one its branch is about. |
| Api.IntBetweenColons | backend/api/greek_derby_api.py:169-178 | A count takes the integer between the first and the second colon, and keeps its previous value when that text is not an integer. |
| Api.IntWithoutColon | backend/api/greek_derby_api.py:170-173 | A count line without a colon leaves the count unchanged, because the `IndexError` is swallowed. |
| Api.RestKeepsLaterColons | backend/api/greek_derby_api.py:180-182 | The two dates take everything after the first colon, later colons included. |
| Api.ParseLinesAppend | backend/api/greek_derby_api.py:168 | Parsing two blocks of lines is parsing the first block and then continuing with the second. |
| Api.ErrorIsFinal | backend/api/greek_derby_api.py:159-191 | Once a line raises, the whole parse fails with that error. |
| Api.UnmatchedLinesKeepFields | backend/api/greek_derby_api.py:168-182 | Lines that mention none of the four keywords change nothing. |
| Api.NoMatchGivesDefaults | backend/api/greek_derby_api.py:162-166 | Text with no keyword line yields exactly the defaults (0, 0, "Unknown", "Unknown"). |
| Api.FieldFrame | backend/api/greek_derby_api.py:168-182 | A field changes only on lines whose branch is that field. |
| Api.LastMatchWins | backend/api/greek_derby_api.py:168-182 | Within one field, the last line about it decides its final value. |
| Api.OneCountLine | backend/api/greek_derby_api.py:168-173 | Lines of which only one is about the question count yield the defaults with that line's count. |
| Api.QuestionsLine | backend/api/greek_derby_api.py:169-171 | The chatbot's "Συνολικές Ερωτήσεις: n" line is a question-count line, and it yields `n`. |
| Api.CountLine | backend/api/greek_derby_api.py:169-171 | A line `caption: n`, with a caption that holds the questions keyword and no colon, yields `n`. |
| Api.AverageLines | greek_derby_chatbot.py:318-319 | The two average lines are about no field. In particular the answer-length line says "Απάντησης", which does not contain the keyword "Απαντήσεις". |
| Api.OtherStatsLines | greek_derby_chatbot.py:314-320 | Every line of the statistics text except the question count is about no field and holds no line break. |
| Api.StatsLinesShape | greek_derby_chatbot.py:314-320 | In the statistics text only the third line is about a field. It is the question count and yields the number of entries, and no line holds a line break. |
| Api.OneCountText | backend/api/greek_derby_api.py:160-189 | Text whose only line about a field is one question-count line yields that line's count, with every other field at its default. |
| Api.StatsOfHistory | greek_derby_chatbot.py:309-320 | For a non-empty history the parse gives (number of questions, 0, "Unknown", "Unknown"). |
| Api.StatsOfChatbot | backend/api/greek_derby_api.py:153-191 | `/stats` on the chatbot's own text always reports `total_answers` 0 and both dates "Unknown", with the question count equal to the history length (0 for an empty history). |
| Api.ClearEndpoint | backend/api/greek_derby_api.py:194-207 | With no chatbot the result is 500. Otherwise the fixed "memory cleared" message is returned and both logs are empty. |
| Api.ExportEndpoint | backend/api/greek_derby_api.py:210-226 | With no chatbot the result is 500. When opening or writing the file raises, the result is 500 "Error exporting conversation: " followed by the exception's message. Otherwise `export_conversation` returns `None`, so the response has no file name and its message names `None`. |
| Api.HealthEndpoint | backend/api/greek_derby_api.py:106-113 | The status is always "healthy", and `chatbot_loaded` holds if and only if a chatbot exists. |
| Api.SampleQuestions | backend/api/greek_derby_api.py:229-246 | There are ten questions, the advertised total equals their number, and the first five are the examples listed at the root. |
| Monitor.CheckLogFiles | backend/scheduler/monitor.py:24-53 | Existence and sizes are reported per file (size 0 when missing). The backward scan finds `LastUpdate`: the text before the first `" - "` of the last line mentioning a completed update, or none when the log is missing, unreadable or has no such line. |
| Monitor.LastMarkerIndex | backend/scheduler/monitor.py:44-49 | This is the index of the last line holding the marker: it holds the marker, and no later line does. |
| Monitor.CheckRecentErrors | backend/scheduler/monitor.py:71-96 | The loop over both files computes `RecentErrors`: the main log's contribution, then the update log's. |
| Monitor.CollectFileErrors | backend/scheduler/monitor.py:76-94 | One file contributes nothing when it is missing. Otherwise it contributes its reported lines in file order, followed by "Error reading <file>: <message>" when reading raised. |
| Monitor.ErrorsIn | backend/scheduler/monitor.py:82-92 | No more results than lines, and every result still mentions ERROR or FAILED after stripping. |
| Monitor.ErrorLineReportedIff | backend/scheduler/monitor.py:83-92 | A line is reported, stripped, if and only if it mentions ERROR or FAILED and its timestamp is after the cutoff or does not parse. |
| Monitor.CutoffIgnoredWhenUnparsable | backend/scheduler/monitor.py:85-92 | When no line's timestamp parses, the reported errors are the same whatever the cutoff. |
| Monitor.ErrorsInAppend | backend/scheduler/monitor.py:82 | The error lines of consecutive parts come out part by part, in order. |
| Monitor.StrippedErrorLine | backend/scheduler/monitor.py:83-92 | Stripping keeps the keyword that made a line an error line. |
| Monitor.ClassifyHealth | backend/scheduler/monitor.py:110-120 | The status is never "unknown". It is critical exactly when the main log is missing, or the update log exists and the database check failed. It is a warning exactly when the main log exists and either the update log is missing or (the database check succeeded and there are recent errors). It is healthy exactly when everything exists, the check succeeded and there are no errors. |
| Monitor.GenerateReport | backend/scheduler/monitor.py:98-122 | The report carries the given timestamp and the full log status of `check_log_files` (both existence flags, both sizes, `LastUpdate`). It carries the database check and `RecentErrors` over the main log as read after the database check, and its health status is `ClassifyHealth` of them, never "unknown". |
| Monitor.ExitCode | backend/scheduler/monitor.py:193-199 | Exit 2 exactly for critical, 1 exactly for warning, 0 otherwise. |
| Monitor.ExitZeroIffHealthy | backend/scheduler/monitor.py:194-199 | For every generated report the script exits 0 if and only if the system is healthy. |
| Updater.ValidDocs | backend/scheduler/update_vector_db.py:138 | A document is kept if and only if it is among the input and its stripped content is longer than 50 characters. |
| Updater.ValidDocsAppend | backend/scheduler/update_vector_db.py:138 | The filter works document by document, so it keeps the input order. |
| Updater.ValidDocsSingle | backend/scheduler/update_vector_db.py:138 | A single document is kept exactly when it is valid. |
| Updater.LoadUrl | backend/scheduler/update_vector_db.py:120-152 | One URL's `try` block yields `UrlDocs` (none when a load raised) and makes the loader calls `UrlCalls`. |
| Updater.ReloadIff | backend/scheduler/update_vector_db.py:132-135 | The unfiltered reload of a URL happens if and only if the URL is scraped and its first load succeeded, returning nothing or only documents shorter than 100 stripped characters. |
| Updater.SuccessfulUrlsIff | backend/scheduler/update_vector_db.py:140-145 | A URL is recorded as successful if and only if it is scraped and yields at least one valid document. |
| Updater.CollectedValid | backend/scheduler/update_vector_db.py:138-142 | Every document gathered by the URL loop is valid. |
| Updater.Collected | backend/scheduler/update_vector_db.py:118-152 | The URL loop records no more successful URLs than there are URLs. |
| Updater.CollectCalls | backend/scheduler/update_vector_db.py:118-152 | The URL loop only calls the web loader. |
| Updater.StepAfterConcat | backend/scheduler/update_vector_db.py:140-142 | Adding one URL's documents commutes with prepending earlier gatherings. |
| Updater.CollectedAppend | backend/scheduler/update_vector_db.py:118-152 | Gathering over `a + b` is gathering over `a`, then over `b`. A URL that raises or yields nothing does not stop the later ones. |
| Updater.RaisingUrlSkipped | backend/scheduler/update_vector_db.py:150-152 | A URL whose load raises contributes no document and no success. |
| Updater.FallbackIff | backend/scheduler/update_vector_db.py:155-169 | The fallback request is made if and only if the URL loop gathered nothing or only documents shorter than 100 stripped characters. It adds exactly one document exactly when it also answers 200. |
| Updater.LoadFreshContent | backend/scheduler/update_vector_db.py:104-172 | The loop over the four gazzetta.gr pages and the fallback compute `FreshContent` (documents and successful URLs) with the call trace `FreshCalls`. |
| Updater.Tagged | backend/scheduler/update_vector_db.py:192-198 | A tagged chunk keeps its text and an existing `source`, and otherwise gets `source` "gazzetta.gr". It gets `type` "greek_derby_news", the cycle's `updated_at` and `update_batch` "batch_" plus its own clock reading. No other metadata key is added, removed or changed. |
| Updater.ProcessAndStore | backend/scheduler/update_vector_db.py:174-207 | An empty document list returns 0 and stores and changes nothing. Otherwise every chunk is tagged in place, with `clock(i)` for chunk `i`. Success returns the number of chunks and stores them all. A raising store returns 0, having stored at most a prefix of the chunks. |
| Updater.TaggedShareUpdate | backend/scheduler/update_vector_db.py:192-197 | All chunks of one cycle carry the same `type` and the same `updated_at`. |
| Updater.TaggedIdempotent | backend/scheduler/update_vector_db.py:193-198 | Tagging a chunk again with the same readings changes nothing: the source set the first time is kept. |
| Updater.RunUpdate | backend/scheduler/update_vector_db.py:230-267 | A cycle over the four gazzetta.gr pages succeeds if and only if some document was loaded, the splitter did not raise and produced at least one chunk, and storing succeeded. |
| Updater.UpdateExitCode | backend/scheduler/update_vector_db.py:268-280 | The updater script exits 0 exactly after a successful cycle, and 1 otherwise. |
| Text.Strip | backend/api/greek_derby_api.py:122 | `str.strip()` gives the contiguous piece of the input that neither starts nor ends with whitespace and holds every non-whitespace code point. |
| Text.Split | backend/api/greek_derby_api.py:162 | `str.split(c)` gives separator-free pieces that join back to the input. |
| Text.SplitJoin | backend/api/greek_derby_api.py:162 | Splitting a join of separator-free pieces gives the pieces back. |
| Text.BeforeFirst | backend/scheduler/monitor.py:47 | `s.split(sep)[0]` is the prefix before the first occurrence of `sep`, or all of `s`. |
| Text.IsSpace | backend/api/greek_derby_api.py:122 | `str.isspace` on one code point: the ASCII whitespace, the separators U+001C to U+001F, and the Unicode spaces and line and paragraph separators. |
| Text.SpaceIsNotNumeric | backend/api/greek_derby_api.py:171 | No whitespace character is a digit, a sign or an underscore, so `strip()` never removes part of a number. |
| Text.ShowNat | greek_derby_chatbot.py:316 | `str(n)` is a non-empty run of decimal digits with no leading zero. |
| Text.ParseInt | backend/api/greek_derby_api.py:171 | `int()` accepts exactly the stripped text that is digits (single underscores allowed between them), optionally after one sign. A `-` sign gives a value of at most 0, and otherwise the value is at least 0. |
| Text.ParseShowNat | backend/api/greek_derby_api.py:171 | `int()` of `str(n)` surrounded by whitespace is `n`. |
| Text.ParseDigits | backend/api/greek_derby_api.py:171 | The digit part is accepted exactly when it is digits with single underscores between digits. |
| Text.ShowGrouped | greek_derby_chatbot.py:317 | `{:,}` is a non-empty run of digits and commas. |

## Left out

- Retrieval and generation are oracles: the LangGraph pipeline, the prompt, the language model, the OpenAI embeddings and the Pinecone index. `Chat` receives their result as a `Generation`.
- The memory summary and statistics texts are modelled, but the content of the prompt that the memory feeds is not.
- The knowledge-base seeding text (`_create_sample_knowledge_base`) and its chunking are not modelled. Only the choice to seed is.
- The text splitter (`RecursiveCharacterTextSplitter`, chunk size 500, overlap 100) is not modelled. The chunks are an arbitrary input, and the splitter raising is an `Err` value.
- `Chatbot.StatsText`: the two averages (`{:.1f}` of a float division) are taken as already-rendered strings, because floating point is not modelled. The lemmas about `/stats` assume they render as digits and a decimal point (`IsFixedPoint`).
- `Text.ShowGrouped`: its contract states only the characters of the grouped numeral (digits and commas), not the value they denote, because the `/stats` proofs need no more.
- `Api.HistoryEndpoint`: the text of the validation error raised by building `ConversationHistory` is a parameter. Only the fact that every non-empty history fails that validation is modelled.
- `Api.ChatEndpoint`: the `except` around `chatbot.chat` cannot fire, because `chat` catches every exception itself. The 500 "Error processing question" path is therefore absent.
- `Api.ExportEndpoint`: writing the JSON file and the timestamped file name that `export_conversation` builds are I/O and are not modelled. Whether the write raises, and with what message, is a parameter, and so is the `None` it returns.
- `Text.ParseDigits` and `Text.ParseInt`: `int()` also accepts non-ASCII decimal digits (Arabic-Indic, full-width and others), which this model rejects. Every number the chatbot writes is ASCII.
- `Monitor.GenerateReport`: the database check is an input (`StatsRead` or `StatsFailed`). So is the main log as `check_recent_errors` reads it: the lines that the updater's log handler appends during the database check, including an `ERROR` line when `describe_index_stats` fails, are not derived. Constructing a `VectorDBUpdater` there can call `sys.exit(1)`, which is not an `Exception` and would end the monitor. That path is not modelled.
- Printing the health report and saving it as JSON (`print_report`, the end of `main` in the monitor) are not modelled.
- `get_database_stats` is not modelled. In the updater its statistics are only logged. In the monitor, `check_database_stats` puts them into the report that `main` saves as JSON; `GenerateReport` takes that check as its `db` input, keeping only whether it succeeded and the error message.
- The updater's `_load_environment` performs the same three-variable check as the chatbot's and exits with status 1. `Chatbot.LoadEnvironment` models both.
- `cleanup_old_content` does nothing and is not modelled.
- `time.sleep`, logging, `print`, the `USER_AGENT` variable and the request headers are not modelled.
- The clock is a parameter: `datetime.now().isoformat()`, the per-chunk `int(time.time())` readings and the monitor's 24-hour cutoff. `strptime` is an abstract partial function from timestamp text to seconds. The updater's log lines start with `asctime`, which ends in milliseconds (`,123`). The format `'%Y-%m-%d %H:%M:%S'` rejects that suffix, so on those lines `strptime` fails and the cutoff has no effect (`Monitor.CutoffIgnoredWhenUnparsable`).
- There is a single API process with one global chatbot; concurrent requests are not modelled.
- The interactive command-line loop (`main` and `print_welcome` of the chatbot) is not modelled.
