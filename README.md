# AI tutor core, modelled in Dafny

This project models the core of an AI tutoring service. A student's question
goes to an agent graph:

- an orchestrator asks a language model for the student's intent;
- a router sends the turn to an answering node, a quiz generation node or a
  fallback node;
- the answering node continues into quiz generation.

Each conversation keeps its log of turns in a `sessions` collection, and the
nodes read the recent part of that log back as prompt history. The chat router
does four things:

- hands out conversation ids;
- pages through a conversation newest first;
- forwards the streamed chunks of the answering and fallback nodes to the client;
- collects the quiz generation chunks, extracts a multiple-choice record from the
  Markdown, saves it, and sends it.

Around this sit four more parts:

- the authentication routes (bearer-token check, registration, login, Google
  sign-in);
- two recomputations of a student's performance metrics, grouped by subject and
  by difficulty;
- the image-search filter that keeps one image per title.

Modules, one per source file plus three shared ones:

| module | file | models |
|---|---|---|
| `Common` | common.dfy | `Option`, `Result`, the failures the services raise, HTTP status codes |
| `Text` | text.dfy | Python's `isspace`, ASCII `lower`, `strip`, `startswith`/`endswith`/`in`, `split(" ")` |
| `Preprocessing` | preprocessing.dfy | `extract_mcq`: the five regular expressions, worked out as backtracking matchers |
| `Documents` | documents.dfy | the `users` and `quizzes` documents and collections, `$push` without upsert |
| `ChatHistory` | chat_history.dfy | the MongoDB chat history (window, sort, conversion) and the Firestore history |
| `Agents` | agents.dfy | the routing, the graph's edges, and the four nodes |
| `QuizStore` | quizzes.dfy | `save_quiz` |
| `Chat` | chat.dfy | conversation ids, pagination, per-turn stream dispatch |
| `WebSearch` | web_search.dfy | `get_unique_image_urls` |
| `Analytics` | analytics.dfy | `updateStudentBasicMetricInDB` and the grouping shared by both metrics |
| `MetricsScript` | test_metrics.dfy | the `user_metrics` script |
| `Auth` | auth.dfy | the token dependency and the three authentication routes |

How the outside world is modelled:

- Each collection is a class with a `docs` map field that the service methods
  update.
- Things the code cannot see or control are parameters:
  - the language model, a function `llm` from prompts to replies;
  - token verification, `verify`;
  - the current time, `now`, `t1` and `t2`;
  - `uuid4`, `freshId`;
  - whether the store acknowledged a write, `acknowledged` and `writeAccepted`.
- The metric dictionaries, which Python keeps in insertion order, are
  sequences of groups in first-seen order.
- Metric ratios are exact `real`s.

## Model

| member | source | states |
|---|---|---|
| Text.Strip | app/utility/preprocessing.py:6 | the result is a slice of the input with only whitespace cut on either side, and it neither starts nor ends with whitespace |
| Text.StripUnique | app/utility/preprocessing.py:6 | `strip` gives the only slice with whitespace on both sides that neither starts nor ends with whitespace |
| Text.StripDropSpace | app/utility/preprocessing.py:17-18 | leading whitespace makes no difference to `strip` |
| Text.LowerStr | app/core_agents.py:43 | same length as the input; only the letters A to Z change, each to its lower-case letter, and none is left in the result |
| Text.LowerStrIdempotent | app/core_agents.py:43 | lower-casing twice is lower-casing once |
| Text.SplitFirst | app/utility/auth.py:31 | the first field of `split(sep)` runs up to the first separator, and the remaining fields are the split of the text after it |
| Preprocessing.LineCaptureIsFirstMatch | app/utility/preprocessing.py:5 | the `\s*(.+)` capture is the match a backtracking engine finds first (longest `\s*`, `.+` to the end of its line), and there is none only when no match exists |
| Preprocessing.TextCaptureIsFirstMatch | app/utility/preprocessing.py:17 | with DOTALL, the capture runs from the end of the whitespace run to the end of the text, and there is none only when no match exists |
| Preprocessing.FirstMatch | app/utility/preprocessing.py:5-22 | `re.search` finds a position at or after the start where the whole pattern matches |
| Preprocessing.FirstMatchIsLeast | app/utility/preprocessing.py:5-22 | no position before the one `re.search` finds matches, and when it finds none, the pattern matches nowhere |
| Preprocessing.Search | app/utility/preprocessing.py:5-22 | `re.search(...).group(1).strip()` is None exactly when the pattern matches at no position, and otherwise neither starts nor ends with whitespace |
| Preprocessing.GroupAt | app/utility/preprocessing.py:5-22 | a captured group lies after the marker and inside the text |
| Preprocessing.OptionAt | app/utility/preprocessing.py:9 | an option match has a letter from A to D and a non-empty text after the six-character marker |
| Preprocessing.FindAllOptions | app/utility/preprocessing.py:9 | every option found has a letter from A to D and a text within one line |
| Preprocessing.FindAllOptionsPositions | app/utility/preprocessing.py:9 | each pair found comes from a match of the option pattern at a witness position, with the rest of that line as its text; the matches are in order and do not overlap, and no index the scan skips, before a match or after the last one, holds a match, so every non-overlapping marker is found |
| Preprocessing.QuestionShape | app/utility/preprocessing.py:5-6 | the question is a single line with no surrounding whitespace |
| Preprocessing.CorrectAnswerShape | app/utility/preprocessing.py:13-14 | the correct answer is exactly one letter from A to D; a following "." is not part of it |
| Preprocessing.ExplanationShape | app/utility/preprocessing.py:17-18 | the explanation is the stripped text from the end of the first marker to the end of the input, across lines, and runs to the end of the text |
| Preprocessing.DifficultyShape | app/utility/preprocessing.py:21-22 | the difficulty is easy, medium or hard without regard to case, with its casing in the text kept |
| Preprocessing.OptionMapKeys | app/utility/preprocessing.py:10 | a letter is a key of the options exactly when some found option has it |
| Preprocessing.OptionMapLastWins | app/utility/preprocessing.py:10 | a repeated letter keeps the stripped text of its last occurrence |
| Preprocessing.OptionsShape | app/utility/preprocessing.py:9-10 | every key of the options is one of the letters "ABCD", and every value lies within one line |
| Preprocessing.OptionsLastWins | app/utility/preprocessing.py:9-10 | every letter found is a key, and its value is the stripped text of the last option found with that letter |
| Preprocessing.ExtractMcq | app/utility/preprocessing.py:3-30 | the question, correct answer, explanation and difficulty are each None exactly when their pattern matches at no position |
| Preprocessing.MissingMarkerGivesNone | app/utility/preprocessing.py:6 | a field whose marker occurs nowhere is None |
| Preprocessing.NoStarNoOptions | app/utility/preprocessing.py:9-10 | text without `*` has no options |
| Preprocessing.UnstructuredTextGivesEmptyRecord | app/utility/preprocessing.py:3-30 | text without `*` or `#` gives a record whose fields are all absent, without failing |
| Documents.PushConversation | app/utility/chat.py:41-44 | `$push` appends the reference to the user's conversation ids; a missing user and every other user are unchanged |
| Documents.PushQuiz | app/utility/quizzes.py:23-26 | `$push` appends the reference to the user's quiz ids; a missing user and every other user are unchanged |
| ChatHistory.DictToMessage | app/utility/custom_libs.py:53-61 | conversion succeeds exactly for the types "human" and "ai", keeping the content; any other type is an unsupported-type error |
| ChatHistory.MessageRoundTrip | app/utility/custom_libs.py:44-61 | storing a human or AI message and converting it back gives the message |
| ChatHistory.StoredRoundTrip | app/utility/custom_libs.py:44-61 | converting a convertible entry and storing it with its own timestamp gives the entry |
| ChatHistory.ConvertAll | app/utility/custom_libs.py:27 | the conversion of a log succeeds exactly when every entry converts, one message per entry in order |
| ChatHistory.OpenSession | app/utility/custom_libs.py:14-17 | a session without a document gets an empty log; existing logs are untouched |
| ChatHistory.Append | app/utility/custom_libs.py:35-39 | one entry is appended to the session's log; a missing document and other sessions are unchanged |
| ChatHistory.Tail | app/utility/custom_libs.py:21 | `$slice -n` keeps the last n entries, or all when there are fewer |
| ChatHistory.SortByTimePermutes | app/utility/custom_libs.py:25 | sorting by timestamp is a permutation of the window |
| ChatHistory.SortByTimeSorted | app/utility/custom_libs.py:25 | the sorted window is in timestamp order |
| ChatHistory.SortByTimeOfSorted | app/utility/custom_libs.py:25 | sorting a log already in timestamp order changes nothing |
| ChatHistory.InsertByTimeStable | app/utility/custom_libs.py:25 | inserting an entry places it after every entry with its timestamp, leaving their order as it was |
| ChatHistory.SortByTimeStable | app/utility/custom_libs.py:25 | the sort is stable: the entries with any one timestamp keep their stored order |
| ChatHistory.WindowOfSorted | app/utility/custom_libs.py:19-25 | a log kept in timestamp order is read as its last entries, in their stored order |
| ChatHistory.RecentMessagesShape | app/utility/custom_libs.py:19-27 | the history reads at most the window's size, in timestamp order, a permutation of the log's last entries, and fails exactly when one of them is neither human nor AI |
| ChatHistory.RecentMessages | app/utility/custom_libs.py:19-27 | a session without a document fails; any other failure is an unsupported message type; at most the window size and the log length are read |
| ChatHistory.MongoChatHistory.constructor | app/utility/custom_libs.py:8-17 | the session's document is created when missing |
| ChatHistory.MongoChatHistory.AddUserMessage | app/utility/custom_libs.py:29-30 | appends a human entry stamped now, nothing else changes |
| ChatHistory.MongoChatHistory.AddAiMessage | app/utility/custom_libs.py:32-33 | appends an AI entry stamped now, nothing else changes |
| ChatHistory.MongoChatHistory.Clear | app/utility/custom_libs.py:41-42 | the session's log becomes empty; a missing document stays missing; other sessions are unchanged |
| ChatHistory.TailSorted | app/utility/custom_libs.py:21-25 | every window of a log in time order is in time order |
| ChatHistory.AppendSorted | app/utility/custom_libs.py:35-39 | appending an entry no earlier than the last keeps the log in time order |
| ChatHistory.LastTurnIsRecent | app/core_agents.py:65-66 | after a question and reply are appended in time order, a window of two or more ends with that question and that reply |
| ChatHistory.FirestoreMessages | app/utility/custom_libs.py:75-81 | no document gives no messages; otherwise one message per entry, each the conversion of its entry's type and content, failing exactly on a type other than human or AI |
| ChatHistory.ArrayUnion | app/utility/custom_libs.py:89-92 | `ArrayUnion` adds the entry at the end unless an equal one is already there |
| ChatHistory.RepeatedQuestionStoredOnce | app/utility/custom_libs.py:83-92 | a question asked again, with the same text, is not stored a second time in the Firestore log |
| ChatHistory.FirestoreChatHistory.constructor | app/utility/custom_libs.py:65-73 | the document is created with an empty log when missing |
| ChatHistory.FirestoreChatHistory.AppendEntry | app/utility/custom_libs.py:89-92 | the update unions the entry into the log; a missing document fails and changes nothing |
| ChatHistory.FirestoreChatHistory.AddUserMessage | app/utility/custom_libs.py:83-84 | unions a human entry into the log |
| ChatHistory.FirestoreChatHistory.AddAiMessage | app/utility/custom_libs.py:86-87 | unions an AI entry into the log |
| ChatHistory.FirestoreChatHistory.Clear | app/utility/custom_libs.py:94-95 | the log is set to empty, creating the document if needed |
| Agents.Route | app/core_agents.py:42-51 | the router never sends a turn back to the orchestrator |
| Agents.RouteSpec | app/core_agents.py:42-51 | answering exactly when the lower-cased intent contains "explanation"; quiz exactly when it contains "quiz" and not "explanation"; fallback otherwise |
| Agents.RouteIgnoresCase | app/core_agents.py:43 | routing does not depend on the case of the intent |
| Agents.EmptyIntentFallsBack | app/core_agents.py:43-51 | an empty intent goes to the fallback node |
| Agents.Successor | app/core_agents.py:105-122 | each edge leads to a node of lower rank, so every run ends (the edges themselves are stated by `TraceShape`) |
| Agents.TraceShape | app/core_agents.py:95-124 | every run is orchestrator→answering→quiz, orchestrator→quiz or orchestrator→fallback, matching the route; fallback and quiz generation never both run |
| Agents.ConversationAppend | app/core_agents.py:57-61 | the prompt history of two logs is the two histories concatenated |
| Agents.ConversationKeepsAll | app/core_agents.py:57-61 | a log of human and AI messages yields one ("human"/"assistant", content) pair per message, in order |
| Agents.Conversation | app/core_agents.py:56-61 | the prompt history is no longer than the messages, and every entry has the role "human" or "assistant" |
| Agents.CollectHistory | app/core_agents.py:56-61 | the loop builds exactly the prompt history of the messages |
| Agents.OrchestratorNode | app/core_agents.py:34-40 | only the intent changes, to the stripped reply to the intent prompt |
| Agents.QuizGenerationNode | app/core_agents.py:71-76 | only the quiz question changes, to the stripped reply to the quiz prompt on the full explanation |
| Agents.LoadMessages | app/core_agents.py:54-55 | the session is opened with a window of 100, and the messages are its recent history followed by the state's messages |
| Agents.RunAnsweringNode | app/core_agents.py:53-69 | a failed history read ends the node with that error and only the session opened; otherwise the answer is the stripped reply to the tutor prompt on the last ten history entries, the log gains the question and then the answer, and the state moves to the quiz stage |
| Agents.RunFallbackNode | app/core_agents.py:78-93 | a failed history read ends the node with that error and only the session opened; otherwise the reply is the stripped reply to the fallback prompt on the last ten history entries, the log gains the question and then the reply, and the stage becomes completed |
| Agents.RunGraph | app/core_agents.py:95-124 | a run visits the nodes of the route's trace; for each route the returned state and the log are those of the nodes composed: answering then quiz generation, quiz generation alone with the log untouched, or fallback; a failed history read returns its error with only the session opened |
| Agents.LoggedTurn | app/core_agents.py:65-66 | recording a turn appends the question and then the reply to the session's log and changes no other session |
| QuizStore.SaveQuiz | app/utility/quizzes.py:9-29 | a duplicate id fails with nothing changed; otherwise exactly one quiz, the record stamped with its id, owner and time, is inserted, and the owner gains a reference to it with no grade or score; an unacknowledged insert fails after the push |
| QuizStore.SavedQuizIsReferenced | app/utility/quizzes.py:20-26 | the owner's newest reference names the stored quiz, with the same record and time |
| Chat.GetOrCreateConversationId | app/utility/chat.py:26-47 | a missing user is a 404; a user with conversations gets the first id back with nothing changed; otherwise one fresh id is pushed and returned; the grade defaults to "10th" |
| Chat.NewConversation | app/utility/chat.py:51-65 | claims without a uid fail with a missing key and change nothing; otherwise each call pushes one fresh conversation id onto the caller's list and returns it |
| Chat.WindowStart | app/utility/chat.py:115 | the first position read is `limit` positions before the end of the window that skips the `offset` newest messages, or 0 when fewer are left: the least non-negative position at or after total - offset - limit |
| Chat.SliceFrom | app/utility/chat.py:118-121 | the store refuses exactly a non-positive count; otherwise it returns at most `n` entries, each the entry at its position counted from `skip`, and fewer only when the log ends first |
| Chat.WindowCount | app/utility/chat.py:116 | the count asked for is min(limit, total - offset) |
| Chat.Reverse | app/utility/chat.py:125 | the reversal has the same length and puts position k at position length - 1 - k |
| Chat.GetPaginatedConversation | app/utility/chat.py:89-131 | an unknown conversation is a 404; a page names its conversation, reports the log's full length, and holds at most the limit and at most the log's length |
| Chat.PageWindow | app/utility/chat.py:89-131 | for an offset inside the log and a positive limit, the page holds the limit messages before the offset newest ones (fewer at the start), newest first, with the full length |
| Chat.PageRejected | app/utility/chat.py:115-122 | for a known conversation, a page fails exactly when the limit is not positive or the offset is at or past the end |
| Chat.UnknownConversation | app/utility/chat.py:109-110 | an unknown conversation is a 404 whatever the window |
| Chat.PageExamples | app/utility/chat.py:115-125 | on 100 messages, limit 10 at offset 0 gives positions 99 to 90; at offset 95 it gives positions 4 to 0 |
| Chat.Forwarded | app/utility/chat.py:171-199 | at most one frame per chunk, each a stream frame from the answering or the fallback node |
| Chat.ForwardedAppend | app/utility/chat.py:171-199 | the frames of two chunk runs are those of each run, concatenated |
| Chat.ForwardedKeepsAll | app/utility/chat.py:171-199 | a run of answering and fallback chunks gives one frame per chunk, in order, with its text and node |
| Chat.QuizTextAppend | app/utility/chat.py:184-189 | the quiz text of two chunk runs is that of each run, concatenated |
| Chat.QuizTextEmpty | app/utility/chat.py:184-203 | the quiz text is empty exactly when every quiz generation chunk is, so a quiz is saved only after one with text |
| Chat.IgnoredChunks | app/utility/chat.py:172-199 | chunks that are not AI chunks, or come from another node, produce no frame and no quiz text |
| Chat.OneChunk | app/utility/chat.py:172-199 | a single answering or fallback chunk gives its own stream frame and no quiz text; a single quiz generation chunk gives its content and no frame; any other chunk gives neither |
| Chat.QuizTextIsJoinedParts | app/utility/chat.py:184-189 | the quiz text is the contents of the quiz generation chunks joined in arrival order, and none of those chunks is forwarded |
| Chat.UnstreamedNotForwarded | app/utility/chat.py:172-199 | chunks none of which is an answering or fallback AI chunk produce no frame |
| Chat.DispatchChunks | app/utility/chat.py:171-199 | the loop forwards exactly the answering and fallback chunks, in order, and gathers exactly the quiz generation text |
| Chat.StreamTurn | app/utility/chat.py:171-213 | with no quiz text, only the forwarded frames are sent and nothing is stored; otherwise the quiz extracted from the text is saved: a duplicate id fails with nothing stored, and a fresh one is inserted and referenced from its owner, then sent as the last frame, or, when the insert is not acknowledged, ends the turn with that failure |
| WebSearch.GetUniqueImageUrls | app/utility/web_search.py:23-40 | the loop computes exactly the filter's result, including the failure on a missing link |
| WebSearch.ErrorPersists | app/utility/web_search.py:29-33 | once the loop raises on an item, the call fails with that error |
| WebSearch.UniqueImagesShape | app/utility/web_search.py:29-38 | kept images have pairwise distinct titles, and each link ends with an image extension regardless of case |
| WebSearch.UniqueImagesSubsequence | app/utility/web_search.py:29-38 | the kept images are copies of input items, in input order |
| WebSearch.LinksPresentNoError | app/utility/web_search.py:32 | when every item has a link, nothing fails |
| WebSearch.UniqueImages | app/utility/web_search.py:23-40 | no more images than items; a failure is the missing-link error, and some item has no link |
| WebSearch.KeptTitles | app/utility/web_search.py:29-38 | a title is among the kept images exactly when some item with that title has an image link |
| WebSearch.ItemKept | app/utility/web_search.py:29-38 | item i is copied exactly when its link has an image extension and no earlier item with its title has one; otherwise it adds nothing |
| WebSearch.RefusedTitleStaysFree | app/utility/web_search.py:30-34 | a title is recorded only when its item is kept: after a refused ".svg", a later ".PNG" with the same title is kept |
| Analytics.AddRow | app/analytics/user_performance_metrics.py:47-53 | a row is counted into its group, or into a new group at the end exactly when its key is new |
| Analytics.Tally | app/analytics/user_performance_metrics.py:38-53 | there are no more groups than rows, and none exactly when there are no rows |
| Analytics.AddRowFind | app/analytics/user_performance_metrics.py:47-53 | after counting a row, only its key's group changes: created with one row, or bumped by one |
| Analytics.TallyFind | app/analytics/user_performance_metrics.py:38-53 | a key's group exists exactly when some row has the key, and holds that key's row count, correct count and score sum |
| Analytics.TallyShape | app/analytics/user_performance_metrics.py:38-53 | each key has one group, and the group totals add up to the number of rows |
| Analytics.CountPositive | app/analytics/user_performance_metrics.py:44-48 | a key is counted exactly when some row has it, and its correct count never exceeds its total |
| Analytics.AccuracyBounds | app/analytics/user_performance_metrics.py:34 | an accuracy of at most as many correct as taken lies between 0 and 100 |
| Analytics.GroupEntry | app/analytics/user_performance_metrics.py:55-70 | only groups with rows have entries, and each entry's accuracy and average use that group's own counts |
| Analytics.CorrectCount | app/analytics/user_performance_metrics.py:32 | the number of correct submissions is at most the number of submissions |
| Analytics.SubmissionsOf | app/analytics/user_performance_metrics.py:19-24 | no more submissions than stored, all of them the user's |
| Analytics.SubmissionsOfAppend | app/analytics/user_performance_metrics.py:19-24 | the submissions read from two stretches of the collection are those of each, in stored order |
| Analytics.OwnSubmissionsKept | app/analytics/user_performance_metrics.py:19-24 | a stretch holding only the user's submissions is read whole, in order |
| Analytics.SubmissionsOfMembers | app/analytics/user_performance_metrics.py:19-24 | a submission is read exactly when it is stored and is the user's |
| Analytics.BasicMetrics | app/analytics/user_performance_metrics.py:30-82 | the quiz count is the number of submissions, there are no more subject or difficulty entries than submissions, and the average accuracy is the overall accuracy |
| Analytics.CountGroups | app/analytics/user_performance_metrics.py:41-53 | the loop builds exactly the subject groups and the difficulty groups of the submissions |
| Analytics.UpdateStudentBasicMetricInDB | app/analytics/user_performance_metrics.py:13-92 | no submissions gives the "no quizzes" message with no write; a refused write is an error result; otherwise the recomputed metrics are written once under the user and returned |
| Analytics.TalliedTotalsAgree | app/analytics/user_performance_metrics.py:30-82 | grouping the same quizzes by subject and by difficulty gives counts that each add up to the quiz count |
| Analytics.BasicMetricsTotals | app/analytics/user_performance_metrics.py:30-82 | quiz count = submissions; per-subject and per-difficulty counts each sum to it; average accuracy = overall accuracy, in [0, 100] |
| Analytics.SubjectEntry | app/analytics/user_performance_metrics.py:42-62 | a subject has an entry exactly when some submission has it ("Unknown" for none), computed from that subject's submissions |
| Analytics.DifficultyEntry | app/analytics/user_performance_metrics.py:43-70 | a difficulty has an entry exactly when some submission has it ("easy" for none), computed from that difficulty's submissions |
| Analytics.OtherUsersIgnored | app/analytics/user_performance_metrics.py:19-24 | another user's submission, wherever it sits in the collection, does not change the user's submissions |
| MetricsScript.CorrectRefs | app/test.py:27 | the correct count is at most the number of references |
| MetricsScript.SumRefs | app/test.py:25-27 | the loop fails exactly when a reference lacks "is_correct", and otherwise computes the score sum and correct count |
| MetricsScript.CheckSubjects | app/test.py:31-32 | the lookup succeeds exactly when every stored quiz referenced has a subject |
| MetricsScript.GroupRefs | app/test.py:36-47 | the loop builds exactly the subject and difficulty groups of the references |
| MetricsScript.ComputeUserMetrics | app/test.py:14-65 | the script returns exactly the result of the specification: no quizzes, the error of the first failing lookup, or the metrics |
| MetricsScript.UserMetrics | app/test.py:14-65 | "no quizzes" exactly for a missing user or empty references; a missing "is_correct" fails first and a missing subject second, each exactly when it occurs; computed metrics count every reference |
| MetricsScript.UserMetricsTotals | app/test.py:23-62 | quiz count = references; per-subject and per-difficulty counts each sum to it; average accuracy = overall accuracy, in [0, 100] |
| MetricsScript.ScriptGroupEntries | app/test.py:36-51 | a subject or difficulty has an entry exactly when some reference is placed under it, computed from those references only |
| MetricsScript.MissingQuizDefaults | app/test.py:37 | a reference to a quiz that is not stored is counted under "Unknown" and "easy" |
| MetricsScript.SavedQuizBlocksScript | app/test.py:27 | right after a quiz is saved, the script fails on that user for lack of "is_correct" |
| Auth.BearerToken | app/utility/auth.py:31 | for a "Bearer " header, the token is the text after the prefix up to the next space |
| Auth.CurrentUser | app/utility/auth.py:23-40 | every refusal is a 401, and a known caller has a "Bearer " header whose token verifies to its claims |
| Auth.CurrentUserSpec | app/utility/auth.py:23-40 | the caller is known exactly when the header has the prefix and the token verifies; every refusal is a 401, a bad header before any verification |
| Auth.CreateUser | app/utility/auth.py:42-82 | claims without a uid fail with a missing key; another user's id is a 403; an existing profile fails with 500; each leaves the store unchanged; otherwise the payload's profile (an absent or empty photo URL stored as "", empty lists) is inserted and returned |
| Auth.LoginEmailPassword | app/utility/auth.py:84-102 | success exactly when the payload id is empty or the caller's (a token without uid matches none) and a profile exists under it; 403 and 404 otherwise |
| Auth.RegisterThenLogin | app/utility/auth.py:42-102 | a user who just registered logs in and gets the registered profile |
| Auth.SignedIn | app/utility/auth.py:131-143 | sign-in creates the caller's profile from the token (a missing or empty picture stored as null) only when it is missing, and changes nothing else |
| Auth.GoogleSignIn | app/utility/auth.py:106-144 | 403 for another user's id, then 401 for a token with a missing or empty uid; otherwise get-or-create, returning the profile found before the insert |
| Auth.SignInIdempotent | app/utility/auth.py:131-143 | signing in again changes nothing and keeps the first profile |

## Left out

- The language model, the prompt templates and the Ollama client are not
  modelled. Each reply is the value of the parameter `llm` on a prompt value.
- `print` calls, the websocket handshake and the receive loop are not modelled.
  That covers the welcome frame, the socket close when the user has no
  conversation, and the `break` that ends the loop after an error.
  `Chat.StreamTurn` models one turn.
- `last_node` only guards `print` calls, so it is not modelled.
- The conversion of `created_at` to ISO text before sending the quiz is not
  modelled: times are integers.
- Preprocessing.DifficultyShape: the difficulty word and its marker are
  compared without regard to ASCII case only. Python's `re.IGNORECASE` on text also matches 'ſ' (long s)
  for the "s" of "easy", and 'ı' (dotless i) or 'İ' (dotted capital I) for the
  "i" of "medium" and the two in the "Difficulty" marker; such input finds a
  difficulty in Python and none in the model. The image extension test is exact:
  no non-ASCII character lower-cases to one of the letters of ".jpg", ".jpeg",
  ".png" or ".gif".
- Analytics.SubjectEntry and Analytics.DifficultyEntry: a submission whose
  `subject` or `difficulty` key is present but null is grouped under the key
  `None` by the source (`dict.get` returns the stored null), while the model,
  which has no present-but-null value, groups it under "Unknown" or "easy".
- The contents of a database document beyond the fields read or written here
  are not modelled. Neither are the `sessions` aggregation pipeline (modelled as
  the length of the log) or the behaviour of a store that fails mid-write.
- A `$slice [skip, n]` projection with a non-positive count is modelled as a
  rejection by the store (`SliceRejected`). The pagination route has no handler
  for it, so an offset at or past the end of a conversation, or a limit of 0,
  fails rather than returning an empty page.
- Analytics.UpdateStudentBasicMetricInDB: the `add_or_update_document` write is
  modelled as replacing the user's metrics document. Its failure is the
  parameter `writeAccepted`, and the only exception modelled is that write. A
  stored score or flag that is present but null (which would make the sums raise)
  is not modelled: a missing key is `None`.
- The `get_user_performance` and `get_conversations` routes are not part of this
  model.
- MetricsScript: a non-boolean `is_correct` and the quiz's `difficulty` key
  being absent (rather than null) are not modelled. A stored quiz always carries
  the key, since the extractor always returns it.
- A missing `question` in the agent state is not modelled; the state always
  holds a question string.
- A negative `max_recent_messages` is not modelled (it is a `nat`).
- Token verification (`verify_id_token`), the vector database and the image
  utility are parameters or outside the core. `google_image_search` is replaced
  by its list of items.
- `Agents.RunGraph`: a turn routed straight to quiz generation uses the initial
  empty full explanation, exactly as the state is built by the socket.
- Floating-point arithmetic is modelled as exact `real` arithmetic.
- The ledger of graded quiz submissions (`QuizResult`) and the difficulty score
  mapping are imported by the metrics script but defined nowhere in the
  repository, so they are not part of this model.
