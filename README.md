# jupyter-aichat, modelled in Dafny

jupyter-aichat adds an `%ai` magic to Jupyter notebooks for chatting with an
OpenAI chat model. This project models its core and proves properties about it:

- **Records.** `api_types.py`: a message, the token usage, and a transmission.
  A transmission is a request or a response with a list of choices.
- **Token window.** `client.Conversation` keeps a conversation log. Each
  transmission records the cumulative token total of the conversation up to
  and including itself. A request to the service is cut down to fit a token
  budget: the leading system messages are pinned, then the longest tail that
  fits beside them is kept. Failing that, the last transmission is sent alone.
  Failing that too, a `RuntimeError` is raised.
- **Scheduled system messages.** System messages are registered with a
  *schedule*: a pattern of ascending ints and `...` markers, plus a start step.
  On each turn, the messages due at the current step replace their own
  earlier copies in the log.
- **Schedules.** Pattern validation, `should_send`, and `parse_schedule`'s
  table-driven recogniser for a leading `schedule=[...]` declaration.
- **The magic.** `aichat_magic.py` holds an older conversation class and the
  `%ai` magic. The model covers:
  - how the magic splits its line and cell into help, a slash command or a
    prompt;
  - its command handler, including `/history` and its budget argument;
  - the older conversation's own slice arithmetic and its one-shot exchange.

Modules, one per file:

| module | file | models |
|---|---|---|
| `Wrappers` | wrappers.dfy | `Option` and `Result` |
| `Errors` | errors.dfy | the exceptions the core raises, as values, and their messages |
| `PyText` | py_text.dfy | the Python string and int built-ins the core relies on: `isspace`, `strip`, `split(None, 1)`, slicing, `int`, `str` |
| `ApiTypes` | api_types.dfy | `api_types.py` |
| `Schedules` | schedule.dfy | `Schedule`: validation and `should_send` |
| `ScheduleParser` | schedule_parser.dfy | `GRAMMAR` and `parse_schedule` |
| `Window` | window.dfy | the pure queries of `client.Conversation` over its log |
| `Client` | client.dfy | `client.Conversation` as a class, and scheduling and streaming as functions |
| `AichatMagic` | aichat_magic.dfy | `aichat_magic.py`: its `Conversation` class and `ConversationMagic` |

Each stateful operation is a method of a class whose fields are the
source's fields. Its `ensures` ties the new state or the result to a
function of the old state, such as `AfterScheduling`, `Exchange` or
`Select`. The lemmas beside that function prove what the source promises
about it.

The model leaves some things as inputs, because they do not run here:
- The tokenizer (`num_tokens_from_messages`) is a function `seq<Message> -> nat`,
  fixed when a conversation is made.
- The streamed chunks of a reply are a sequence of deltas.
- A completion from the service is a value.
- The tokens Python's `tokenize` produces for a text are a sequence.

## Model

| member | source | states |
|---|---|---|
| ApiTypes.NewMessage | src/jupyter_aichat/api_types.py:5-9 | a message keeps the given role and content, and `name` defaults to none |
| ApiTypes.MakeRequest | src/jupyter_aichat/api_types.py:55-57 | a request built from a message reads back that message and that total, and is a request |
| ApiTypes.MakeResponse | src/jupyter_aichat/api_types.py:60-62 | a response built from a message reads back that message and that total, and is a response |
| ApiTypes.AccessorsReadFirstChoice | src/jupyter_aichat/api_types.py:38-52 | `message`, `role` and `content` read the first choice, and all three raise `IndexError` without one, whatever the kind; `total_tokens` is the usage's total |
| ApiTypes.ContentAgreesWithMessage | src/jupyter_aichat/api_types.py:42-48 | `content` read from the first choice succeeds exactly when `message` does, and equals the message's content |
| PyText.Drop | src/jupyter_aichat/schedule.py:160 | `s[n:]` is what remains after the first `n` characters, and is empty past the end |
| PyText.StripEmptyIffBlank | src/jupyter_aichat/aichat_magic.py:217 | `text.strip()` is empty exactly when the text is all whitespace |
| PyText.SplitOnce | src/jupyter_aichat/aichat_magic.py:224 | `split(None, 1)` gives no part exactly for blank text, otherwise at most two non-empty parts: a word without whitespace, and a rest that starts with a non-space |
| PyText.SplitOnceParts | src/jupyter_aichat/aichat_magic.py:224 | the parts rebuild the text, with blank lead and gap, and the gap is non-empty when there is a rest |
| PyText.SplitOnceOf | src/jupyter_aichat/aichat_magic.py:224 | the converse: blank lead, word, blank gap and rest split into the word and the rest |
| PyText.ParseInt | src/jupyter_aichat/aichat_magic.py:241 | `int(s)` succeeds only on text that is not blank after stripping |
| PyText.ParseIntOfNumeral | src/jupyter_aichat/aichat_magic.py:241 | `int` reads a decimal numeral as its value |
| PyText.DecimalRoundTrip | src/jupyter_aichat/aichat_magic.py:241 | the digits `str` writes for a natural number read back as that number |
| PyText.ParseIntRoundTrip | src/jupyter_aichat/aichat_magic.py:241 | `int(str(i)) == i` for every int, negative ones included |
| Window.PromptRoleIs | src/jupyter_aichat/client.py:208-216 | raises `IndexError` exactly when there is no choice; otherwise true exactly when the first message's role is the given one |
| Window.IsSystemPrompt | src/jupyter_aichat/client.py:219-226 | raises exactly when there is no choice; otherwise true exactly for the role `system` |
| Window.PromptRoleExamples | tests/test_client.py:17-140 | the test suite's cases for both kinds: `IndexError` without choices, and the role comparison otherwise |
| Window.PyIndex | src/jupyter_aichat/client.py:120-123 | Python indexing succeeds exactly for indices in `-len <= i < len` |
| Window.SliceInRange | src/jupyter_aichat/client.py:107-124 | for bounds within the log, a slice costs the cumulative total at its stop minus the one at its start |
| Window.SliceErrors | src/jupyter_aichat/client.py:115-118 | an empty log costs 0 whatever the bounds; reversed bounds raise the `stop ... must be greater than start` error; a stop past the end raises `IndexError` |
| Window.SliceAdditive | src/jupyter_aichat/client.py:107-124 | the costs of two adjacent slices add up to the cost of their union |
| Window.TotalTokens | src/jupyter_aichat/client.py:146-155 | the conversation's total is the cumulative total of the whole log, that is the cost of the slice `[0:len]` |
| Window.SliceIsSumOfCosts | src/jupyter_aichat/client.py:107-124 | when every total is the running sum of per-transmission costs, a slice costs exactly the sum of its transmissions' costs |
| Window.CostsMakeMonotone | src/jupyter_aichat/client.py:33-38 | totals recorded as running sums of non-negative costs never decrease along the log |
| Window.InitialSystemMessages | src/jupyter_aichat/client.py:95-105 | the length of the maximal leading run of system transmissions, and the cumulative total at its end (0 for an empty run) |
| Window.CurrentStep | src/jupyter_aichat/client.py:137-144 | the step is at most the log's length |
| Window.CurrentStepCountsAssistants | src/jupyter_aichat/client.py:137-144 | the step is the number of `assistant` roles among the log's roles |
| Window.FirstFit | src/jupyter_aichat/client.py:80-83 | the loop stops at the least tail index that fits beside the pinned tokens; when there is none, no index fits |
| Window.Selection | src/jupyter_aichat/client.py:76-93 | the whole log exactly when its total fits. Otherwise either the system run is pinned beside the longest fitting tail after it, or it is dropped and the last transmission is sent alone because no tail fits. What is kept fits the budget. The error is raised exactly when nothing fits and the last transmission costs more than the budget, and it reports that cost and the budget |
| Window.Select | src/jupyter_aichat/client.py:69-93 | the result is `log[:keep] + log[from:]` for the policy's `(keep, from)`, or the policy's error; it is a sub-multiset of the log and ends with its last transmission |
| Window.Messages | src/jupyter_aichat/client.py:133-135 | one message per transmission, in order, each the transmission's `message` |
| Window.MessagesWithin | src/jupyter_aichat/client.py:126-135 | succeeds exactly when the selection does. Then it is no longer than the log and ends with the last message. Otherwise it is the selection's error |
| Window.NextRequest | src/jupyter_aichat/client.py:33-38 | the next request carries the given message and costs the log's total plus the message's own tokens |
| Window.WholeLogFits | src/jupyter_aichat/client.py:76-77 | a log whose total fits is returned whole |
| Window.FitsUpwardClosed | src/jupyter_aichat/client.py:80-83 | with non-decreasing totals, a fitting tail keeps fitting as it is shortened |
| Window.PinnedDroppedIffLastDoesNotFit | src/jupyter_aichat/client.py:84-93 | with non-decreasing totals, the system run is dropped exactly when the last transmission alone does not fit beside it |
| Window.HistoryExamples | tests/test_aichat_magic.py:228-262 | the `/history` test log and budgets: the whole log for the default and 4097, the system message and the last one for 4096 and 97, the last alone for 96 and 49, and an error of 49 tokens against 48 |
| Window.HistoryMessagesUnbounded | tests/test_aichat_magic.py:229 | the default budget sends every message of the test log |
| Window.HistoryMessagesLimited | tests/test_aichat_magic.py:231 | `MAX_TOKENS` sends the system message and the assistant's |
| Window.HistoryMessagesLastOnly | tests/test_aichat_magic.py:234 | a budget of 96 sends the assistant's message alone |
| Window.SuffixExample | src/jupyter_aichat/client.py:80-93 | totals 40, 50, 60, 70 under a budget of 61 keep the system message and the last two transmissions |
| Client.DueRequests | src/jupyter_aichat/client.py:175-188 | at most one request per registration, all well formed |
| Client.DueRequestsUseCorrectedSchedule | src/jupyter_aichat/client.py:182-188 | with the pattern `[0, 5, ..., 7]` at step 7, one request is due here, where the source's `should_send` as written rejects the step |
| Client.DueRequestsMembers | src/jupyter_aichat/client.py:182-188 | a request is due exactly when it is the request of a registration whose schedule matches the step, costing the base total plus its message's tokens |
| Client.Contents | src/jupyter_aichat/client.py:198 | one content per transmission, in order, each the transmission's `content` |
| Client.RemoveStale | src/jupyter_aichat/client.py:199-204 | the filtered log is no longer than the log and stays well formed |
| Client.RemoveStaleMembers | src/jupyter_aichat/client.py:199-204 | a transmission survives exactly when it is in the log and is not a system transmission whose content is among the new ones |
| Client.RemoveStaleConcat | src/jupyter_aichat/client.py:199-204 | filtering distributes over concatenation |
| Client.RemoveStaleIdempotent | src/jupyter_aichat/client.py:199-204 | filtering twice by the same contents is filtering once |
| Client.RemoveAllStale | src/jupyter_aichat/client.py:199-204 | a log of stale transmissions only is removed entirely |
| Client.CurrentStepConcat | src/jupyter_aichat/client.py:137-144 | the step of two logs together is the sum of their steps |
| Client.RemoveStaleKeepsStep | src/jupyter_aichat/client.py:199-204 | filtering out system transmissions does not change the step |
| Client.AfterScheduling | src/jupyter_aichat/client.py:190-205 | the log after scheduling stays well formed |
| Client.DueAreStale | src/jupyter_aichat/client.py:193-204 | the due requests of system registrations count no step, and each repeats one of the new contents, so a later run removes it |
| Client.SchedulingKeepsStep | src/jupyter_aichat/client.py:190-205 | scheduling system messages does not advance the conversation's step |
| Client.DueMessagesIgnoreBase | src/jupyter_aichat/client.py:185-188 | which messages are due, and their contents, do not depend on the log's total |
| Client.SchedulingIdempotentOnMessages | src/jupyter_aichat/client.py:193-205 | scheduling twice at the same step leaves the same messages as scheduling once: the first run's copies are replaced |
| Client.StreamPieces | src/jupyter_aichat/client.py:55-59 | no longer than the deltas, every piece non-empty, and empty exactly when no delta carries assistant content |
| Client.ConcatNonEmpty | src/jupyter_aichat/client.py:61-63 | joined non-empty pieces are empty exactly when there are none |
| Client.Outgoing | src/jupyter_aichat/client.py:33-40 | the written log is well formed and ends with the user's prompt, which costs the old total plus its own tokens |
| Client.Reply | src/jupyter_aichat/client.py:63-66 | the reply is an assistant response of the joined pieces, costing the prompt's total plus its own tokens |
| Client.ExchangeEffect | src/jupyter_aichat/client.py:31-67 | a turn leaves the written log, with the reply after it exactly when the request could be selected and the reply is not empty. The log stays well formed. What is sent is the written log's selection within `MAX_TOKENS`. The total grows by the reply's tokens |
| Client.CollectReply | src/jupyter_aichat/client.py:42-60 | the loop over the chunks keeps exactly the specified pieces |
| Client.Conversation.constructor | src/jupyter_aichat/client.py:27-29 | a new conversation has no transmissions and no registrations |
| Client.Conversation.GetTransmissions | src/jupyter_aichat/client.py:69-93 | the loop returns the selection policy's transmissions, or its error |
| Client.Conversation.GetMessages | src/jupyter_aichat/client.py:126-135 | the messages of the selection within the budget |
| Client.Conversation.RegisterSystemMessage | src/jupyter_aichat/client.py:157-173 | the log is unchanged. The registration is skipped exactly when `skip_if_exists` is set and a system transmission has that content; otherwise it is appended |
| Client.Conversation.GetScheduledSystemMessages | src/jupyter_aichat/client.py:175-188 | the loop yields exactly the due requests at the step, costed from the log's total |
| Client.Conversation.AddScheduledSystemMessages | src/jupyter_aichat/client.py:190-205 | the log becomes its scheduled form, and the registrations stay as they were |
| Client.Conversation.SayAndListen | src/jupyter_aichat/client.py:31-67 | the new log and the result are those of `Exchange` on the old log, and the invariant is kept |
| AichatMagic.MagicAgreesInRange | src/jupyter_aichat/aichat_magic.py:137-152 | on slices within the log that end after its first element, this module's slice cost agrees with the client's and is the difference of cumulative totals |
| AichatMagic.MagicDiffers | src/jupyter_aichat/aichat_magic.py:137-152 | where the two differ: `[0:0]` reads index -1, the whole total, where the client returns 0; reversed bounds give a difference where the client raises |
| AichatMagic.WithSystemMessage | src/jupyter_aichat/aichat_magic.py:172-189 | the log only grows, by at most the new system request, and afterwards holds that content |
| AichatMagic.AddSystemIdempotent | src/jupyter_aichat/aichat_magic.py:183-189 | adding the same system message again with `skip_if_exists` changes nothing |
| AichatMagic.AddSystemAppends | src/jupyter_aichat/aichat_magic.py:172-189 | without `skip_if_exists`, the request is appended whatever the log holds |
| AichatMagic.Prompted | src/jupyter_aichat/aichat_magic.py:78-88 | the prompt is appended after the unchanged log, which stays well formed |
| AichatMagic.Answer | src/jupyter_aichat/aichat_magic.py:94-95 | the recorded response has the completion's choices and total |
| AichatMagic.Exchange | src/jupyter_aichat/aichat_magic.py:78-97 | a turn only extends the log |
| AichatMagic.ExchangeEffect | src/jupyter_aichat/aichat_magic.py:78-97 | the prompt comes after the old log. When the selection fails, the turn ends with that error. Otherwise the prompt carries the service's prompt count, the service's response follows, and the total becomes its total. The turn succeeds exactly when the response has a choice, and then it carries the messages sent and the stripped reply |
| AichatMagic.Conversation.constructor | src/jupyter_aichat/aichat_magic.py:75-76 | a new conversation has no transmissions |
| AichatMagic.Conversation.GetTransmissions | src/jupyter_aichat/aichat_magic.py:99-123 | this version's loop, with its own slice arithmetic, selects what the client's policy selects |
| AichatMagic.Conversation.GetMessages | src/jupyter_aichat/aichat_magic.py:154-164 | the messages of the selection within the budget |
| AichatMagic.Conversation.AddSystemMessage | src/jupyter_aichat/aichat_magic.py:172-189 | the log becomes `WithSystemMessage` of the old log |
| AichatMagic.Conversation.SayAndListen | src/jupyter_aichat/aichat_magic.py:78-97 | the new log and the result are those of `Exchange` on the old log, including the prompt's total overwritten in place |
| AichatMagic.Dispatch | src/jupyter_aichat/aichat_magic.py:215-226 | help exactly for blank text. A command is a whitespace-free first word starting with `/`, with its parameter starting with a non-space. A prompt is the joined text itself |
| AichatMagic.DispatchRecovers | src/jupyter_aichat/aichat_magic.py:224-226 | a command's name and parameter rebuild the text, around blank whitespace |
| AichatMagic.DispatchOf | src/jupyter_aichat/aichat_magic.py:224-226 | text made of a word and a rest is dispatched on that word: a command for `/`, the whole text as a prompt otherwise |
| AichatMagic.PromptLineAlone | tests/test_aichat_magic.py:68-88 | the line alone is sent as is |
| AichatMagic.PromptLeadingSpaceKept | tests/test_aichat_magic.py:68-88 | leading spaces are kept |
| AichatMagic.PromptCellAlone | tests/test_aichat_magic.py:68-88 | an empty line and a cell send a space and the cell. The test suite's expectation leaves that space out |
| AichatMagic.PromptLineAndCell | tests/test_aichat_magic.py:68-88 | line and cell are joined by one space |
| AichatMagic.PromptCellNewlinesKept | tests/test_aichat_magic.py:68-88 | the cell's newlines are kept |
| AichatMagic.HelpExamples | tests/test_aichat_magic.py:39-46 | every blank line and cell combination of the test suite asks for help |
| AichatMagic.CommandAlone | tests/test_aichat_magic.py:131-151 | `/restart` alone is a command without a parameter |
| AichatMagic.CommandAfterSpace | tests/test_aichat_magic.py:131-151 | leading spaces are skipped |
| AichatMagic.CommandBeforeSpace | tests/test_aichat_magic.py:131-151 | trailing spaces give no parameter |
| AichatMagic.CommandWithParams | tests/test_aichat_magic.py:131-151 | the parameter keeps its trailing spaces |
| AichatMagic.CommandParamsInCell | tests/test_aichat_magic.py:131-151 | a parameter from the cell loses its leading whitespace only |
| AichatMagic.CommandInCell | tests/test_aichat_magic.py:131-151 | a command in the cell after an empty line |
| AichatMagic.CommandMultilineParams | tests/test_aichat_magic.py:131-151 | a multi-line parameter is kept whole |
| AichatMagic.HistoryLimit | src/jupyter_aichat/aichat_magic.py:238-244 | `limit` is `MAX_TOKENS` and nothing is the default. Anything else is read by `int`, and succeeds exactly when `int` does, raising its `ValueError` otherwise |
| AichatMagic.HistoryLimitOfNumber | src/jupyter_aichat/aichat_magic.py:238-244 | `str(n)` as the parameter gives the budget `n` |
| AichatMagic.HistoryLimitOfNumeral | src/jupyter_aichat/aichat_magic.py:238-244 | a decimal numeral gives its value |
| AichatMagic.History | src/jupyter_aichat/aichat_magic.py:237-250 | fails exactly when the budget cannot be read or the selection fails; otherwise it is the selected messages as a listing |
| AichatMagic.LimitOf96 | tests/test_aichat_magic.py:234 | the parameter `96` reads as 96 |
| AichatMagic.LimitOf48 | tests/test_aichat_magic.py:236-241 | the parameter `48` reads as 48 |
| AichatMagic.HistoryCommandExamples | tests/test_aichat_magic.py:228-268 | `/history` on the test log: every message with no parameter, the system message and the last with `limit`, the last alone with `96`, and the 49-against-48 error with `48` |
| AichatMagic.ConversationMagic.constructor | src/jupyter_aichat/aichat_magic.py:209-212 | a new magic has a fresh, empty conversation and the given templates |
| AichatMagic.ConversationMagic.HandleCommand | src/jupyter_aichat/aichat_magic.py:230-255 | `/restart` makes a fresh, empty conversation. `/system` appends the system message. `/get_object` returns the conversation. `/history` shows the listing or raises its error. Any other command shows its template or the unknown-command note. Only `/restart` replaces the conversation, and only `/system` changes the log |
| AichatMagic.ConversationMagic.Ai | src/jupyter_aichat/aichat_magic.py:214-228 | blank input shows help and adds the help system message unless it is there. A command is handled as `handle_command` does. A prompt runs the conversation's turn on the joined text and shows the stripped reply |
| Schedules.LastIntBefore | src/jupyter_aichat/schedule.py:41-57 | `previous_int` is -1 or one of the ints already seen |
| Schedules.FirstViolation | src/jupyter_aichat/schedule.py:42-57 | no error exactly when every element passes its check |
| Schedules.FirstViolationIsFirst | src/jupyter_aichat/schedule.py:42-57 | the error raised is the first failing element's |
| Schedules.IntsBelowLast | src/jupyter_aichat/schedule.py:53-57 | while every check passes, `previous_int` is at least every int seen and never below -1 |
| Schedules.ValidatedIsValid | src/jupyter_aichat/schedule.py:36-57 | what validation accepts is a valid, non-empty pattern, and a non-empty input is kept element by element |
| Schedules.ValidPatternAccepted | src/jupyter_aichat/schedule.py:36-57 | every valid non-empty pattern passes validation unchanged |
| Schedules.NewSchedule | src/jupyter_aichat/schedule.py:32-57 | the constructor's loop succeeds exactly when validation does, with the validated pattern and the start, and raises validation's error otherwise |
| Schedules.ValidationExamples | tests/test_schedule.py:32-62 | the test suite's malformed patterns each raise their own message, and the empty pattern becomes `[0]` |
| Schedules.NothingMatchesBeyond | src/jupyter_aichat/schedule.py:83-87 | in a valid pattern, nothing from an int above the step onwards can match it |
| Schedules.LiteralDecides | src/jupyter_aichat/schedule.py:83-87 | an int at least the step, reached with nothing matched before, decides alone: a match exactly when it equals the step |
| Schedules.SeriesDecides | src/jupyter_aichat/schedule.py:88-98 | inside a series' range, the step matches exactly when it is on the series, and the difference is positive |
| Schedules.BelowOpenSeries | src/jupyter_aichat/schedule.py:89-90 | a step below an open-ended series' first new term does not match |
| Schedules.PassOver | src/jupyter_aichat/schedule.py:83-94 | an element passed over does not match the step |
| Schedules.ShouldSend | src/jupyter_aichat/schedule.py:59-101 | true exactly when the step is at least the start and the reduced step is one of the ints or on one of the series. Never true before the start |
| Schedules.ScanAsWrittenSound | src/jupyter_aichat/schedule.py:73-101 | the loop as written never reports a step the schedule does not contain |
| Schedules.AsWrittenSound | src/jupyter_aichat/schedule.py:59-101 | `should_send` as written implies the schedule matches |
| Schedules.AsWrittenMissesClosingInt | src/jupyter_aichat/schedule.py:88-98 | `[0, 5, ..., 7]` lists 7, but `should_send(7)` as written is false |
| Schedules.AsWrittenMissesLaterInt | src/jupyter_aichat/schedule.py:88-98 | `[0, 10, ..., 12, 15]` lists 15, but `should_send(15)` as written is false |
| Schedules.AsWrittenMissesLaterSeries | src/jupyter_aichat/schedule.py:88-98 | `[0, 10, ..., 11, 12, ...]` contains 13, but `should_send(13)` as written is false |
| Schedules.OpenSeriesExample | tests/test_schedule.py:16 | `[0, 2, ...]` from 5 matches every second step from 5 on |
| Schedules.ClosedSeriesExample | tests/test_schedule.py:17 | `[1, 2, 4, ..., 8]` from 1 matches exactly 2, 3, 5, 7, 9 |
| Schedules.TwoSeriesExample | tests/test_schedule.py:18 | `[1, 3, ..., 9, 12, ...]` from 4 matches odd reduced steps up to 9, then every third from 12 |
| Schedules.LiteralExamples | tests/test_schedule.py:11-15 | single-int patterns and `[0, 2]` match exactly their ints |
| ScheduleParser.Lookup | src/jupyter_aichat/schedule.py:148-158 | the action is the grammar's entry for the token's exact text, else its `ANY` entry, and is missing (the `KeyError`) exactly when neither exists |
| ScheduleParser.LiteralEval | src/jupyter_aichat/schedule.py:164 | `...` evaluates to Ellipsis and exactly it does; a decimal numeral evaluates to its value |
| ScheduleParser.ParseSchedule | src/jupyter_aichat/schedule.py:136-169 | the loop over the tokens computes the parser's outcome |
| ScheduleParser.RunOutcome | src/jupyter_aichat/schedule.py:145-169 | every outcome is one of four. A schedule has a valid, non-empty pattern, the given start and a suffix of the text. An unexpected token is reported with its own type, text and column. The tokens can run out. A declared pattern can fail validation |
| ScheduleParser.CancelOnOtherWord | src/jupyter_aichat/schedule.py:159-160 | a text starting with another word declares no schedule, and all of it from that word on is the message |
| ScheduleParser.LookupTable | src/jupyter_aichat/schedule.py:126-133 | the grammar's entries for the tokens of a declaration |
| ScheduleParser.ItemTokenEvaluates | src/jupyter_aichat/schedule.py:163-164 | the token of a pattern element evaluates to that element |
| ScheduleParser.RunList | src/jupyter_aichat/schedule.py:131-132 | reading a list emits its elements in order and finishes at its closing bracket |
| ScheduleParser.ParseDeclaration | src/jupyter_aichat/schedule.py:126-169 | round trip: a declaration of a valid pattern, optionally indented, parses to exactly that pattern and start, and the rest is the text after `]` |
| ScheduleParser.DeclarationStart | src/jupyter_aichat/schedule.py:127-128 | an optional indent and `schedule` lead to the state expecting `=` |
| ScheduleParser.RunDeclaredList | src/jupyter_aichat/schedule.py:129-132 | from `=` on, a declaration runs through its list to the schedule |
| ScheduleParser.ParseEmptyList | tests/test_schedule.py:66 | `schedule=[]` declares the default pattern `[0]` |
| ScheduleParser.ListEnd | src/jupyter_aichat/schedule.py:131-132 | a list ends at a `]` token |
| ScheduleParser.ExampleTokensDeclare | tests/test_schedule.py:74-80 | the example's tokens declare `[1, 2, 4, ..., 8]`, closed at token 12 |
| ScheduleParser.ExampleRemainder | tests/test_schedule.py:74-80 | the text after column 26 of the example is its message |
| ScheduleParser.ParseDeclarationExample | tests/test_schedule.py:74-80 | the example parses to its pattern and its message |
| ScheduleParser.ParseNoDeclarationExample | tests/test_schedule.py:89-96 | text without a declaration is all message, under `[0]` and the given start |
| ScheduleParser.ParseErrorExample | tests/test_schedule.py:107-111 | `schedule=[ bla bla` raises on `NAME 'bla'` at column 11 |
| ScheduleParser.ParseAfterKeywordExample | tests/test_schedule.py:97-101 | `schedule bla bla bla` raises on `NAME 'bla'` at column 9, as the code does |

## Left out

- Client.DueRequests: decides which registrations are due with the corrected `should_send` (`Schedules.Matches`), where `client.py:183` calls the source's `should_send` as written. The two differ on the steps in the finding below. For example, with the pattern `[0, 5, ..., 7]` at step 7 the model yields one request and the source yields none (`Client.DueRequestsUseCorrectedSchedule`). Wherever the source's version reports a step, the corrected one does too (`Schedules.AsWrittenSound`).
- Client.DueRequestsMembers: "matches" is the corrected schedule predicate, so the due set is the corrected one, as in the line above.
- Client.AfterScheduling: appends the corrected due set, so on the steps the source misses it adds system messages, and removes their earlier copies, where the source does neither. The same holds for `Client.Outgoing`, `Client.Exchange`, `Client.ExchangeEffect` and `Client.Conversation.SayAndListen`, which build on it.
- Client.Conversation.GetScheduledSystemMessages: its loop calls the corrected `Schedules.ShouldSend`, not the source's `should_send` as written.
- Client.Conversation.AddScheduledSystemMessages: the new log is `AfterScheduling` over the corrected due set.
- ApiTypes.MakeRequest: `client.py:35-38` and `187` call `Request(message=m, usage=u)`, but the dataclasses at `api_types.py:33-36` and `55-57` take only `choices` and `usage`, so the calls raise `TypeError` as the code stands. The model reads such a call as a transmission with the single choice `Choice(m)`.
- ApiTypes.MakeResponse: the same reading of `Response(message=m, usage=u)` at `client.py:66`, against the fields at `api_types.py:60-62`.
- Calls to the service, authentication, notebook output and the spinner are not modelled. A completion, or the streamed deltas of one, is an input of the turn.
- `tokens.py` is not part of this model. The token count of messages is an uninterpreted function fixed per conversation.
- The templates and `TemplateLoader` are a map of rendered template texts. Template rendering and the package's resource files are not modelled.
- Python's `tokenize` is not modelled. `parse_schedule` takes the token sequence of its text as an input, with columns on a single line.
- ScheduleParser.LiteralEval: evaluates `...` and decimal numerals only. Other literals `literal_eval` accepts, such as hexadecimal or underscored ints, give a value that validation rejects.
- PyText.ParseInt: reads an optional sign and decimal digits only. Underscores between digits and non-ASCII digits, which `int` accepts, are not modelled.
- Errors.Repr: quotes a string in single quotes without escaping. This matches `repr` only for strings without quotes, backslashes or unprintable characters.
- AichatMagic.ConversationMagic.Ai: requires one choice in the completion. Without one, the source's log afterwards holds a transmission it cannot read, and the magic's invariant no longer holds. `AichatMagic.Conversation.SayAndListen` itself models that case: it records the response and returns `IndexError`.
- AichatMagic.ConversationMagic.HandleCommand: `/system` adds its parameter unchanged as a system message, as `aichat_magic.py:234` does. The test suite also expects it to parse a leading `schedule=[...]` and register a schedule (tests/test_aichat_magic.py:186-219). That is the client's registration, which this module's handler does not call, so it is not modelled here.
- The tests that read `system_message_schedules` from the magic's conversation (tests/test_aichat_magic.py:29-32, 57-65 and 102-107) are not modelled. This module's conversation has no such field, and the registrations are modelled on the client's `Conversation`.
- ScheduleParser.ParseAfterKeywordExample: the test at tests/test_schedule.py:97-106 expects `schedule bla ...` and `schedule= bla ...` to be text without a declaration. The grammar has no `ANY` entry in states 1 to 3, so the code raises instead. The model follows the code.
- AichatMagic.PromptCellAlone: the test at tests/test_aichat_magic.py:72-74 expects an empty line and a cell to send the cell alone. The code sends `f"{line} {cell}"`, with a leading space. The model follows the code.
- Client.SchedulingIdempotentOnMessages: states that messages are equal, not the transmissions. The re-added copies are costed from a longer log, so their totals can differ.
- Window.FitsUpwardClosed and Window.PinnedDroppedIffLastDoesNotFit: require non-decreasing totals as a precondition. `Window.CostsMakeMonotone` shows that they hold when totals are running sums of non-negative costs. The operations do not keep this as a class invariant, because a completion's reported totals are taken as given (`aichat_magic.py:94`).
- Client.Conversation.RegisterSystemMessage: requires a valid pattern. The schedules the source passes are `Schedule` objects, already validated by their constructor (`Schedules.NewSchedule`).
- AichatMagic.Conversation.GetTransmissions: the magic's `get_tokens_for_slice(n, 0)`, which reads index -1, is not reached by the loop. `AichatMagic.MagicDiffers` states it separately.
- The client's turn reads the tokens of the reply after the whole stream. Partial output updates during the stream are not modelled.
- `__init__.py`, `output.py` and `authentication.py` are not part of this model.

## Findings

| source | as written | input that shows it | evidently intended | confidence | as-written member | corrected member |
|---|---|---|---|---|---|---|
| src/jupyter_aichat/schedule.py:88-98 | At an Ellipsis, `should_send` returns False as soon as the step is below the series' first new term `b + d`, before any later element is examined. Every step below `b + d` that a later element lists is never reported: the closing int when `b < c < b + d`, a later int, or a term of a later series. | pattern `[0, 5, ..., 7]`, start 0, step 7: 7 is in the pattern, yet `should_send(7)` is False; likewise `[0, 10, ..., 12, 15]` at 15 and `[0, 10, ..., 11, 12, ...]` at 13 | every int of a valid pattern, and every term of each of its series, is a step at which the message is sent | not executed | Schedules.AsWrittenMissesClosingInt | Schedules.ShouldSend |
