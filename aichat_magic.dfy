/**
 * `aichat_magic`: the `%ai` notebook magic and the conversation it keeps, an
 * older, dictionary-based version of the client's conversation without
 * scheduled system messages.
 */
module AichatMagic {
  import opened Wrappers
  import opened Errors
  import opened PyText
  import opened ApiTypes
  import opened Window

  /** The template shown for empty input. */
  const HELP := "help"
  /** The template registered as a system message for empty input. */
  const HELP_SYSTEM := "help_assistant_system_message"

  /** What the service returns for a completion: its choices and its own token counts. */
  datatype Completion = Completion(choices: seq<Choice>, promptTokens: nat, completionTokens: nat, totalTokens: nat)

  /** The outcome of a finished turn: the messages sent and the text shown. */
  datatype Turn = Turn(sent: seq<Message>, shown: string)

  // ---------------------------------------------------------------------------
  // Token arithmetic of this version
  // ---------------------------------------------------------------------------

  /**
   * `Conversation.get_tokens_for_slice(start, stop)` of this module: like the
   * client's, but with no check that the bounds are in order and no special
   * case for an empty slice.
   */
  function MagicTokensForSlice(log: seq<Transmission>, start: int, stop: int): Result<int, Error> {
    if |log| == 0 then Ok(0)
    else if start == 0 then TotalAt(log, stop - 1)
    else
      match TotalAt(log, stop - 1)
      case Err(e) => Err(e)
      case Ok(last) =>
        match TotalAt(log, start - 1)
        case Err(e) => Err(e)
        case Ok(first) => Ok(last - first)
  }

  /** On every slice within the log that ends after its first element, both versions agree. */
  lemma MagicAgreesInRange(log: seq<Transmission>, start: int, stop: int)
    requires 0 <= start <= stop <= |log| && (stop > 0 || |log| == 0)
    ensures MagicTokensForSlice(log, start, stop) == TokensForSlice(log, start, stop)
    ensures MagicTokensForSlice(log, start, stop) == Ok(Cumulative(log, stop) - Cumulative(log, start))
  {
    SliceInRange(log, start, stop);
  }

  /** Where they part: `[0:0]` reads index -1, the last total; reversed bounds give a difference, not an error. */
  lemma MagicDiffers(log: seq<Transmission>, start: int, stop: int)
    requires |log| > 0
    ensures MagicTokensForSlice(log, 0, 0) == Ok(TotalTokens(log)) && TokensForSlice(log, 0, 0) == Ok(0)
    ensures 0 < stop < start <= |log| ==>
      && MagicTokensForSlice(log, start, stop) == Ok(Cumulative(log, stop) - Cumulative(log, start))
      && TokensForSlice(log, start, stop) == Err(SliceOrder(start, stop))
  {
  }

  // ---------------------------------------------------------------------------
  // Adding a system message
  // ---------------------------------------------------------------------------

  /** The log after `add_system_message(content, skip_if_exists)`. */
  function WithSystemMessage(log: seq<Transmission>, count: seq<Message> -> nat, content: string, skipIfExists: bool)
    : (r: seq<Transmission>)
    requires WellFormed(log)
    ensures WellFormed(r) && log <= r && |r| <= |log| + 1
    ensures HasSystemContent(r, content)
    ensures |r| == |log| + 1 ==> r[|log|] == NextRequest(log, count, "system", content)
  {
    if skipIfExists && HasSystemContent(log, content) then log
    else
      var request := NextRequest(log, count, "system", content);
      assert Role(request) == "system";
      assert (log + [request])[|log|] == request;
      log + [request]
  }

  /** With `skip_if_exists`, adding the same system message twice is adding it once. */
  lemma AddSystemIdempotent(log: seq<Transmission>, count: seq<Message> -> nat, content: string, skipIfExists: bool)
    requires WellFormed(log)
    ensures var once := WithSystemMessage(log, count, content, skipIfExists);
      WithSystemMessage(once, count, content, true) == once
  {
  }

  /** Without `skip_if_exists`, the message is appended whatever the log holds. */
  lemma AddSystemAppends(log: seq<Transmission>, count: seq<Message> -> nat, content: string)
    requires WellFormed(log)
    ensures WithSystemMessage(log, count, content, false) == log + [NextRequest(log, count, "system", content)]
  {
  }

  // ---------------------------------------------------------------------------
  // The conversation
  // ---------------------------------------------------------------------------

  /** The log with the user's prompt appended, costing the log's total plus its own tokens. */
  function Prompted(log: seq<Transmission>, count: seq<Message> -> nat, text: string): (r: seq<Transmission>)
    requires WellFormed(log)
    ensures WellFormed(r) && |r| == |log| + 1 && r[..|log|] == log
  {
    log + [NextRequest(log, count, "user", text)]
  }

  /** The service's completion as the response transmission the log records. */
  function Answer(completion: Completion): (t: Transmission)
    ensures t.kind == Response && t.choices == completion.choices
    ensures TotalTokensOf(t) == completion.totalTokens
  {
    Transmission(Response, completion.choices,
      CompletionUsage(completion.totalTokens, completion.promptTokens, completion.completionTokens))
  }

  /**
   * `say_and_listen(text)` on a log, answered by `completion`: the new log and
   * the turn. The prompt is appended; if the selection for the request fails,
   * that error ends the turn; otherwise the prompt's total is overwritten by
   * the service's prompt count, the service's response is appended, and its
   * first choice's content, stripped, is shown (`IndexError` without a choice).
   */
  function Exchange(log: seq<Transmission>, count: seq<Message> -> nat, text: string, completion: Completion)
    : (r: (seq<Transmission>, Result<Turn, Error>))
    requires WellFormed(log)
    ensures log < r.0
  {
    var prompted := Prompted(log, count, text);
    match MessagesWithin(prompted, MAX_TOKENS)
    case Err(e) => (prompted, Err(e))
    case Ok(sent) =>
      var answered := log + [MakeRequest(NewMessage("user", text), completion.promptTokens), Answer(completion)];
      if |completion.choices| == 0 then (answered, Err(IndexError))
      else (answered, Ok(Turn(sent, Strip(completion.choices[0].message.content))))
  }

  /**
   * The log a turn leaves behind: the prompt after the old log; when the
   * request's selection fails, nothing more and that error; otherwise the
   * prompt carrying the service's prompt count, then the service's response,
   * so the total is the service's; the turn succeeds exactly when the response
   * has a choice, and then shows what was sent and the stripped reply.
   */
  lemma ExchangeEffect(log: seq<Transmission>, count: seq<Message> -> nat, text: string, completion: Completion)
    requires WellFormed(log)
    ensures
      var (after, turn) := Exchange(log, count, text, completion);
      var prompted := Prompted(log, count, text);
      && after[|log|].choices == [Choice(NewMessage("user", text))]
      && (MessagesWithin(prompted, MAX_TOKENS).Err? ==>
            after == prompted && turn == Err(MessagesWithin(prompted, MAX_TOKENS).error))
      && (MessagesWithin(prompted, MAX_TOKENS).Ok? ==>
            && |after| == |log| + 2 && TotalTokensOf(after[|log|]) == completion.promptTokens
            && after[|log| + 1].kind == Response && after[|log| + 1].choices == completion.choices
            && TotalTokens(after) == completion.totalTokens
            && (turn.Ok? <==> |completion.choices| > 0))
      && (turn.Ok? ==>
            && |completion.choices| > 0 && WellFormed(after)
            && turn.value.sent == MessagesWithin(prompted, MAX_TOKENS).value
            && turn.value.shown == Strip(completion.choices[0].message.content))
  {
    if |completion.choices| > 0 {
      MessagesDistribute(log, [MakeRequest(NewMessage("user", text), completion.promptTokens), Answer(completion)]);
    }
  }

  class Conversation {
    var transmissions: seq<Transmission>
    /** `num_tokens_from_messages`, from an encoding the model does not include. */
    const tokenizer: seq<Message> -> nat

    predicate Valid()
      reads this
    {
      WellFormed(transmissions)
    }

    constructor(tokenizer: seq<Message> -> nat)
      ensures Valid() && transmissions == [] && this.tokenizer == tokenizer
    {
      transmissions := [];
      this.tokenizer := tokenizer;
    }

    /** `get_transmissions(max_tokens)`, scanning with this version's slice arithmetic. */
    method GetTransmissions(maxTokens: int) returns (r: Result<seq<Transmission>, Error>)
      requires Valid()
      ensures r == Select(transmissions, maxTokens)
    {
      var log := transmissions;
      if TotalTokens(log) <= maxTokens {
        assert log[..|log|] + log[|log|..] == log;
        return Ok(log);
      }
      var n := |log|;
      var (run, runTokens) := InitialSystemMessages(log);
      var index := run;
      var found := false;
      while index < n
        invariant run <= index <= n
        invariant FirstFit(log, index, runTokens, maxTokens) == FirstFit(log, run, runTokens, maxTokens)
        decreases n - index
      {
        var tail := MagicTokensForSlice(log, index, n);
        MagicAgreesInRange(log, index, n);
        if runTokens + tail.value <= maxTokens {
          found := true;
          break;
        }
        index := index + 1;
      }
      if !found {
        index := n - 1;
        var last := MagicTokensForSlice(log, index, n);
        if n > 0 {
          MagicAgreesInRange(log, index, n);
        }
        if last.value > maxTokens {
          return Err(BudgetExceeded(last.value, maxTokens));
        }
        run := 0;
      }
      return Ok(log[..run] + log[index..]);
    }

    /** `get_messages(max_tokens)`. */
    method GetMessages(maxTokens: int := DEFAULT_MAX_TOKENS) returns (r: Result<seq<Message>, Error>)
      requires Valid()
      ensures r == MessagesWithin(transmissions, maxTokens)
    {
      var selected := GetTransmissions(maxTokens);
      match selected
      case Ok(log) => return Ok(Messages(log));
      case Err(e) => return Err(e);
    }

    /** `add_system_message(content, skip_if_exists)`. */
    method AddSystemMessage(content: string, skipIfExists: bool := false)
      requires Valid()
      modifies this
      ensures Valid()
      ensures transmissions == WithSystemMessage(old(transmissions), tokenizer, content, skipIfExists)
    {
      var message := NewMessage("system", content);
      var total := TotalTokens(transmissions) + tokenizer([message]);
      var request := MakeRequest(message, total);
      if skipIfExists && HasSystemContent(transmissions, content) {
        return;
      }
      transmissions := transmissions + [request];
    }

    /** `say_and_listen(text)`, with the service's completion given. */
    method SayAndListen(text: string, completion: Completion) returns (r: Result<Turn, Error>)
      requires Valid()
      modifies this
      ensures (transmissions, r) == Exchange(old(transmissions), tokenizer, text, completion)
    {
      ghost var before := transmissions;
      var request := NewMessage("user", text);
      var promptTokens := tokenizer([request]);
      var prompt := MakeRequest(request, TotalTokens(transmissions) + promptTokens);
      transmissions := transmissions + [prompt];
      ghost var prompted := Prompted(before, tokenizer, text);
      assert transmissions == prompted;
      var payload := GetMessages(MAX_TOKENS);
      assert payload == MessagesWithin(prompted, MAX_TOKENS);
      if payload.Err? {
        assert Exchange(before, tokenizer, text, completion) == (prompted, Err(payload.error));
        return Err(payload.error);
      }
      var corrected := MakeRequest(request, completion.promptTokens);
      transmissions := transmissions[|transmissions| - 1 := corrected];
      assert transmissions == before + [corrected];
      var response := Answer(completion);
      transmissions := transmissions + [response];
      assert transmissions == before + [corrected, response];
      ghost var expected := Exchange(before, tokenizer, text, completion);
      assert expected.0 == transmissions;
      if |response.choices| == 0 {
        assert expected.1 == Err(IndexError);
        return Err(IndexError);
      }
      var content := response.choices[0].message.content;
      assert expected.1 == Ok(Turn(payload.value, Strip(content)));
      return Ok(Turn(payload.value, Strip(content)));
    }
  }

  // ---------------------------------------------------------------------------
  // Reading the magic's input
  // ---------------------------------------------------------------------------

  /** The magic's text: the line alone, or the line, a space and the cell. */
  function JoinInput(line: string, cell: Option<string>): string {
    match cell
    case None => line
    case Some(body) => line + " " + body
  }

  /** What `ai` does with its text. */
  datatype Input = Help | Command(name: string, params: Option<string>) | Prompt(text: string)

  /**
   * `ai(line, cell)`'s decision: help for blank text (`not text.strip()`, see
   * `StripEmptyIffBlank`), a command for a first word starting with `/`, a
   * prompt otherwise.
   */
  function Dispatch(line: string, cell: Option<string>): (r: Input)
    ensures r.Help? <==> IsBlank(JoinInput(line, cell))
    ensures r.Command? ==> r.name != [] && r.name[0] == '/' && forall k :: 0 <= k < |r.name| ==> !IsSpace(r.name[k])
    ensures r.Command? && r.params.Some? ==> r.params.value != [] && !IsSpace(r.params.value[0])
    ensures r.Prompt? ==> r.text == JoinInput(line, cell)
  {
    var text := JoinInput(line, cell);
    if IsBlank(text) then Help
    else
      var parts := SplitOnce(text);
      if parts[0][0] == '/' then Command(parts[0], if |parts| == 2 then Some(parts[1]) else None)
      else Prompt(text)
  }

  /** A command is its text's first word, and its parameter the rest of the text after the separating whitespace. */
  lemma DispatchRecovers(line: string, cell: Option<string>)
    ensures var text := JoinInput(line, cell);
      Dispatch(line, cell).Command? ==>
        var c := Dispatch(line, cell);
        exists lead: string, gap: string ::
          && IsBlank(lead) && IsBlank(gap)
          && text == lead + c.name + gap + c.params.GetOr([])
          && (c.params.Some? ==> gap != [])
  {
    SplitOnceParts(JoinInput(line, cell));
  }

  /** The converse: text made of blank lead, a word, blank gap and a rest is dispatched on that word. */
  lemma DispatchOf(line: string, cell: Option<string>, lead: string, word: string, gap: string, rest: string)
    requires JoinInput(line, cell) == lead + word + gap + rest
    requires IsBlank(lead) && IsBlank(gap)
    requires word != [] && forall k :: 0 <= k < |word| ==> !IsSpace(word[k])
    requires rest != [] ==> gap != [] && !IsSpace(rest[0])
    ensures word[0] == '/' ==> Dispatch(line, cell) == Command(word, if rest == [] then None else Some(rest))
    ensures word[0] != '/' ==> Dispatch(line, cell) == Prompt(JoinInput(line, cell))
  {
    SplitOnceOf(lead, word, gap, rest);
  }

  /** Prompt text from test_ai_with_prompt_calls_say_and_listen: the line and cell joined by one space, nothing stripped. */
  lemma PromptLineAlone()
    ensures Dispatch("hello", None) == Prompt("hello")
  {
    DispatchOf("hello", None, "", "hello", "", "");
  }

  lemma PromptLeadingSpaceKept()
    ensures Dispatch("  hello", None) == Prompt("  hello")
  {
    DispatchOf("  hello", None, "  ", "hello", "", "");
  }

  lemma PromptCellAlone()
    ensures Dispatch("", Some("hello\n")) == Prompt(" hello\n")
  {
    assert JoinInput("", Some("hello\n")) == " hello\n";
    assert " " + "hello" + "\n" + "" == " hello\n";
    DispatchOf("", Some("hello\n"), " ", "hello", "\n", "");
  }

  lemma PromptLineAndCell()
    ensures Dispatch("hello", Some("world\n")) == Prompt("hello world\n")
  {
    assert JoinInput("hello", Some("world\n")) == "hello world\n";
    assert "" + "hello" + " " + "world\n" == "hello world\n";
    DispatchOf("hello", Some("world\n"), "", "hello", " ", "world\n");
  }

  lemma PromptCellNewlinesKept()
    ensures Dispatch("  hello", Some("\n\nworld\n")) == Prompt("  hello \n\nworld\n")
  {
    assert JoinInput("  hello", Some("\n\nworld\n")) == "  hello \n\nworld\n";
    assert "  " + "hello" + " \n\n" + "world\n" == "  hello \n\nworld\n";
    DispatchOf("  hello", Some("\n\nworld\n"), "  ", "hello", " \n\n", "world\n");
  }

  /** Blank input in its forms asks for help. */
  lemma HelpExamples()
    ensures Dispatch("", None) == Help && Dispatch("   ", None) == Help
    ensures Dispatch("", Some("")) == Help && Dispatch("", Some(" \n ")) == Help && Dispatch("   ", Some(" \n ")) == Help
  {
  }

  /** Slash commands from test_ai_handles_slash_commands. */
  lemma CommandAlone()
    ensures Dispatch("/restart", None) == Command("/restart", None)
  {
    DispatchOf("/restart", None, "", "/restart", "", "");
  }

  lemma CommandAfterSpace()
    ensures Dispatch("  /save-key", None) == Command("/save-key", None)
  {
    DispatchOf("  /save-key", None, "  ", "/save-key", "", "");
  }

  lemma CommandBeforeSpace()
    ensures Dispatch("/get_object  ", None) == Command("/get_object", None)
  {
    DispatchOf("/get_object  ", None, "", "/get_object", "  ", "");
  }

  lemma CommandWithParams()
    ensures Dispatch("/system  \"You are a dog\"  ", None) == Command("/system", Some("\"You are a dog\"  "))
  {
    DispatchOf("/system  \"You are a dog\"  ", None, "", "/system", "  ", "\"You are a dog\"  ");
  }

  lemma CommandParamsInCell()
    ensures Dispatch("/history", Some("\n \n limit\n")) == Command("/history", Some("limit\n"))
  {
    DispatchOf("/history", Some("\n \n limit\n"), "", "/history", " \n \n ", "limit\n");
  }

  lemma CommandInCell()
    ensures Dispatch("", Some("\n /template-name \n ")) == Command("/template-name", None)
  {
    DispatchOf("", Some("\n /template-name \n "), " \n ", "/template-name", " \n ", "");
  }

  lemma CommandMultilineParams()
    ensures Dispatch("", Some("\n /system \n 1 \n 2 \n ")) == Command("/system", Some("1 \n 2 \n "))
  {
    DispatchOf("", Some("\n /system \n 1 \n 2 \n "), " \n ", "/system", " \n ", "1 \n 2 \n ");
  }

  // ---------------------------------------------------------------------------
  // The `/history` command
  // ---------------------------------------------------------------------------

  /** The budget `/history` asks for: `limit` is the request budget, nothing is the default, anything else is read by `int`. */
  function HistoryLimit(params: string): (r: Result<int, Error>)
    ensures params == "limit" ==> r == Ok(MAX_TOKENS)
    ensures params == "" ==> r == Ok(DEFAULT_MAX_TOKENS)
    ensures params != "limit" && params != "" ==>
      (r.Ok? <==> ParseInt(params).Some?) && (r.Err? ==> r.error == InvalidLiteral(params))
  {
    if params == "limit" then Ok(MAX_TOKENS)
    else if params != "" then
      match ParseInt(params)
      case Some(n) => Ok(n)
      case None => Err(InvalidLiteral(params))
    else Ok(DEFAULT_MAX_TOKENS)
  }

  /** `str(n)` as a parameter sets the budget to `n`. */
  lemma HistoryLimitOfNumber(n: int)
    ensures HistoryLimit(IntToString(n)) == Ok(n)
  {
    ParseIntRoundTrip(n);
    assert IntToString(n) != "limit" by {
      if n < 0 {
        assert IntToString(n)[0] == '-';
      } else {
        assert IsNumeral(IntToString(n));
      }
    }
  }

  /** A plain numeral as a parameter sets the budget to its decimal value. */
  lemma HistoryLimitOfNumeral(s: string)
    requires IsNumeral(s)
    ensures HistoryLimit(s) == Ok(DecimalValue(s))
  {
    ParseIntOfNumeral(s);
    assert IsDigit(s[0]);
  }

  function HistoryEntry(m: Message): string {
    "**" + m.role + ":** " + Strip(m.content)
  }

  /** `"\n\n".join` of the messages' entries. */
  function HistoryText(messages: seq<Message>): string {
    if |messages| == 0 then ""
    else if |messages| == 1 then HistoryEntry(messages[0])
    else HistoryText(messages[..|messages| - 1]) + "\n\n" + HistoryEntry(messages[|messages| - 1])
  }

  /** What `/history` shows or raises. */
  datatype HistoryResult = Listing(markdown: string) | Failure(error: Error)

  /** `/history params` on a log: the selected messages as a listing, or the error of reading the budget or of selecting. */
  function History(log: seq<Transmission>, params: string): (r: HistoryResult)
    requires WellFormed(log)
    ensures r.Failure? <==> HistoryLimit(params).Err? || MessagesWithin(log, HistoryLimit(params).value).Err?
    ensures r.Listing? ==> r.markdown == HistoryText(MessagesWithin(log, HistoryLimit(params).value).value)
  {
    match HistoryLimit(params)
    case Err(e) => Failure(e)
    case Ok(budget) =>
      match MessagesWithin(log, budget)
      case Err(e) => Failure(e)
      case Ok(messages) => Listing(HistoryText(messages))
  }

  /** The first numeric parameter of the `/history` test. */
  lemma LimitOf96()
    ensures HistoryLimit("96") == Ok(96)
  {
    HistoryLimitOfNumeral("96");
    assert "96"[..1] == "9";
  }

  /** The second numeric parameter of the `/history` test. */
  lemma LimitOf48()
    ensures HistoryLimit("48") == Ok(48)
  {
    HistoryLimitOfNumeral("48");
    assert "48"[..1] == "4";
  }

  /**
   * `/history` on the test log (system "1" at 48 tokens, user "2" at 4048,
   * assistant "3" at 4097): everything without a parameter; the system
   * message and the last one with `limit`; the last one alone with `96`; and
   * `48` raises, since the last message alone costs 49 tokens.
   */
  lemma HistoryCommandExamples()
    ensures History(HistoryLog(), "") == Listing(HistoryText(Messages(HistoryLog())))
    ensures History(HistoryLog(), "limit") == Listing(HistoryText([NewMessage("system", "1"), NewMessage("assistant", "3")]))
    ensures History(HistoryLog(), "96") == Listing(HistoryText([NewMessage("assistant", "3")]))
    ensures History(HistoryLog(), "48") == Failure(BudgetExceeded(49, 48))
  {
    LimitOf96();
    LimitOf48();
    HistoryMessagesUnbounded();
    HistoryMessagesLimited();
    HistoryMessagesLastOnly();
    HistoryExamples();
  }

  // ---------------------------------------------------------------------------
  // The magic
  // ---------------------------------------------------------------------------

  /** What a magic call leaves in the notebook: nothing, shown markdown, the conversation object, or an exception. */
  datatype Outcome = Silent | Shown(markdown: string) | Returned(conversation: Conversation) | Raised(error: Error)

  function UnknownCommand(command: string): string {
    "Unknown command `" + command + "`. Try `%ai` for help."
  }

  class ConversationMagic {
    var conversation: Conversation
    /** The bundled templates, by name, already rendered. */
    const templates: map<string, string>
    const tokenizer: seq<Message> -> nat

    ghost predicate Valid()
      reads this, conversation
    {
      && conversation.Valid() && conversation.tokenizer == tokenizer
      && HELP in templates && HELP_SYSTEM in templates
    }

    constructor(tokenizer: seq<Message> -> nat, templates: map<string, string>)
      requires HELP in templates && HELP_SYSTEM in templates
      ensures Valid() && fresh(conversation) && conversation.transmissions == []
      ensures this.tokenizer == tokenizer && this.templates == templates
    {
      this.tokenizer := tokenizer;
      this.templates := templates;
      conversation := new Conversation(tokenizer);
    }

    /** The markdown an unrecognised command shows: its template if there is one, the unknown-command note otherwise. */
    function Fallback(command: string): string
      reads this
    {
      if |command| > 0 && command[0] == '/' && command[1..] in templates then templates[command[1..]]
      else UnknownCommand(command)
    }

    /** The effect of `handle_command(command, params)`. */
    twostate predicate Handled(command: string, params: string, new r: Outcome)
      requires old(Valid())
      reads this, conversation
    {
      && Valid()
      && (command == "/restart" ==>
            fresh(conversation) && conversation.transmissions == [] && r == Silent)
      && (command != "/restart" ==> conversation == old(conversation))
      && (command == "/system" ==>
            conversation.transmissions == WithSystemMessage(old(conversation.transmissions), tokenizer, params, false)
            && r == Silent)
      && (command == "/get_object" ==>
            conversation.transmissions == old(conversation.transmissions) && r == Returned(conversation))
      && (command == "/history" ==>
            conversation.transmissions == old(conversation.transmissions)
            && r == match History(old(conversation.transmissions), params)
                    case Listing(markdown) => Shown(markdown)
                    case Failure(e) => Raised(e))
      && (command !in {"/restart", "/system", "/get_object", "/history"} ==>
            conversation.transmissions == old(conversation.transmissions) && r == Shown(Fallback(command)))
    }

    /** `handle_command(command, params)`. */
    method HandleCommand(command: string, params: string := "") returns (r: Outcome)
      requires Valid()
      modifies this, conversation
      ensures Handled(command, params, r)
    {
      if command == "/restart" {
        conversation := new Conversation(tokenizer);
        return Silent;
      } else if command == "/system" {
        conversation.AddSystemMessage(params);
        return Silent;
      } else if command == "/get_object" {
        return Returned(conversation);
      } else if command == "/history" {
        var budget := HistoryLimit(params);
        if budget.Err? {
          return Raised(budget.error);
        }
        var messages := conversation.GetMessages(budget.value);
        if messages.Err? {
          return Raised(messages.error);
        }
        return Shown(HistoryText(messages.value));
      } else if |command| > 0 && command[0] == '/' && command[1..] in templates {
        return Shown(templates[command[1..]]);
      }
      return Shown(UnknownCommand(command));
    }

    /** `ai(line, cell)`, with the service's completion for a prompt given. */
    method Ai(line: string, cell: Option<string>, completion: Completion) returns (r: Outcome)
      requires Valid() && |completion.choices| > 0
      modifies this, conversation
      ensures Valid()
      ensures Dispatch(line, cell).Help? ==>
        && conversation == old(conversation)
        && conversation.transmissions == WithSystemMessage(old(conversation.transmissions), tokenizer, templates[HELP_SYSTEM], true)
        && r == Shown(templates[HELP])
      ensures Dispatch(line, cell).Command? ==>
        Handled(Dispatch(line, cell).name, Dispatch(line, cell).params.GetOr(""), r)
      ensures Dispatch(line, cell).Prompt? ==>
        var (log, turn) := Exchange(old(conversation.transmissions), tokenizer, Dispatch(line, cell).text, completion);
        && conversation == old(conversation) && conversation.transmissions == log
        && r == match turn case Ok(t) => Shown(t.shown) case Err(e) => Raised(e)
    {
      var text := JoinInput(line, cell);
      ghost var input := Dispatch(line, cell);
      StripEmptyIffBlank(text);
      if Strip(text) == [] {
        assert input.Help?;
        conversation.AddSystemMessage(templates[HELP_SYSTEM], true);
        return Shown(templates[HELP]);
      }
      var parts := SplitOnce(text);
      var maybeCommand := parts[0];
      if maybeCommand[0] == '/' {
        var params := if |parts| == 2 then parts[1] else "";
        assert input.Command? && input.name == maybeCommand && input.params.GetOr("") == params;
        r := HandleCommand(maybeCommand, params);
        return;
      }
      assert input == Prompt(text);
      ghost var log := conversation.transmissions;
      assert log == old(conversation.transmissions);
      ExchangeEffect(log, tokenizer, text, completion);
      var turn := conversation.SayAndListen(text, completion);
      assert (conversation.transmissions, turn) == Exchange(log, tokenizer, text, completion);
      match turn {
        case Ok(t) => r := Shown(t.shown);
        case Err(e) => r := Raised(e);
      }
    }
  }
}
