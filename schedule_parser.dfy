/**
 * `parse_schedule`: a table-driven recogniser for a leading
 * `schedule=[int, int, ..., int]` declaration in a system message. The token
 * stream Python's tokenizer produces for the text is an input of the model.
 */
module ScheduleParser {
  import opened Wrappers
  import opened Errors
  import opened PyText
  import opened Schedules

  /** A token: its type, named as `tok_name` names it (`"NAME"`, `"OP"`, ...), its text and its columns. */
  datatype Token = Token(kind: string, text: string, startCol: nat, endCol: nat)

  datatype Action = Goto(target: int) | EmitAndGoto(target: int) | Cancel

  const END := -1
  const ANY := ""

  /** The state machine: state, then token type, then token text (or `ANY`), to action. */
  const GRAMMAR: map<int, map<string, map<string, Action>>> := map[
    0 := map["INDENT" := map[ANY := Goto(1)], "NAME" := map["schedule" := Goto(2), ANY := Cancel]],
    1 := map["NAME" := map["schedule" := Goto(2)]],
    2 := map["OP" := map["=" := Goto(3)]],
    3 := map["OP" := map["[" := Goto(4)]],
    4 := map["NUMBER" := map[ANY := EmitAndGoto(5)], "OP" := map["..." := EmitAndGoto(5), "]" := Goto(END)]],
    5 := map["OP" := map["," := Goto(4), "]" := Goto(END)]]
  ]

  /** The action for a token: by its type, then its exact text, else the `ANY` entry; `None` where Python raises `KeyError`. */
  function Lookup(state: int, tok: Token): (r: Option<Action>)
    ensures r.Some? ==> state in GRAMMAR && tok.kind in GRAMMAR[state]
    ensures r.Some? ==> r.value in GRAMMAR[state][tok.kind].Values
    ensures r.None? <==>
      (state !in GRAMMAR || tok.kind !in GRAMMAR[state]
       || (tok.text !in GRAMMAR[state][tok.kind] && ANY !in GRAMMAR[state][tok.kind]))
  {
    if state in GRAMMAR && tok.kind in GRAMMAR[state] then
      var strings := GRAMMAR[state][tok.kind];
      if tok.text in strings then Some(strings[tok.text])
      else if ANY in strings then Some(strings[ANY])
      else None
    else None
  }

  /** `literal_eval` of an emitted token: `...`, a decimal int, or some other value. */
  function LiteralEval(text: string): (v: PyValue)
    ensures text == "..." <==> v == PyEllipsis
    ensures IsNumeral(text) ==> v == PyInt(DecimalValue(text))
  {
    if text == "..." then PyEllipsis
    else if IsNumeral(text) then PyInt(DecimalValue(text))
    else PyOther
  }

  /** What `parse_schedule` returns on reaching `END`: the constructed schedule and the text after the closing token. */
  function Finish(text: string, pattern: seq<PyValue>, start: int, endCol: nat): Result<(Schedule, string), Error> {
    match Validated(pattern)
    case Ok(p) => Ok((Schedule(p, start), Drop(text, endCol)))
    case Err(e) => Err(InvalidSchedule(e))
  }

  /** The outcome of the parser from token `i` on, in `state`, having emitted `pattern`. */
  function Run(text: string, toks: seq<Token>, start: int, i: nat, state: int, pattern: seq<PyValue>)
    : Result<(Schedule, string), Error>
    requires i <= |toks|
    decreases |toks| - i
  {
    if i == |toks| then Err(UnexpectedEnd(text))
    else
      var tok := toks[i];
      match Lookup(state, tok)
      case None => Err(UnexpectedToken(tok.kind, tok.text, tok.startCol, text))
      case Some(Cancel) => Ok((Schedule([Literal(0)], start), Drop(text, tok.startCol)))
      case Some(Goto(t)) =>
        if t == END then Finish(text, pattern, start, tok.endCol)
        else Run(text, toks, start, i + 1, t, pattern)
      case Some(EmitAndGoto(t)) =>
        var pattern' := pattern + [LiteralEval(tok.text)];
        if t == END then Finish(text, pattern', start, tok.endCol)
        else Run(text, toks, start, i + 1, t, pattern')
  }

  function Parse(text: string, toks: seq<Token>, start: int): Result<(Schedule, string), Error> {
    Run(text, toks, start, 0, 0, [])
  }

  /** `parse_schedule(string, start)`, over the tokens of `string`. */
  method ParseSchedule(text: string, toks: seq<Token>, start: int) returns (r: Result<(Schedule, string), Error>)
    ensures r == Parse(text, toks, start)
  {
    var state := 0;
    var pattern: seq<PyValue> := [];
    var i := 0;
    while i < |toks|
      invariant i <= |toks| && state != END
      invariant Run(text, toks, start, i, state, pattern) == Parse(text, toks, start)
      decreases |toks| - i
    {
      var tok := toks[i];
      var action := Lookup(state, tok);
      if action.None? {
        return Err(UnexpectedToken(tok.kind, tok.text, tok.startCol, text));
      }
      match action.value {
        case Cancel =>
          return Ok((Schedule([Literal(0)], start), Drop(text, tok.startCol)));
        case Goto(t) =>
          state := t;
        case EmitAndGoto(t) =>
          state := t;
          pattern := pattern + [LiteralEval(tok.text)];
      }
      if state == END {
        var s := NewSchedule(pattern, start);
        match s
        case Ok(schedule) =>
          return Ok((schedule, Drop(text, tok.endCol)));
        case Err(e) =>
          return Err(InvalidSchedule(e));
      }
      i := i + 1;
    }
    return Err(UnexpectedEnd(text));
  }

  // ---------------------------------------------------------------------------
  // Properties
  // ---------------------------------------------------------------------------

  /**
   * Every outcome is one of four: a schedule with a valid, non-empty pattern
   * and the given start followed by a suffix of the text; a token the grammar
   * does not expect, reported by its own type, text and column; the end of the
   * tokens; or a declared pattern that fails validation.
   */
  lemma {:induction false} RunOutcome(text: string, toks: seq<Token>, start: int, i: nat, state: int, pattern: seq<PyValue>)
    requires i <= |toks|
    ensures var r := Run(text, toks, start, i, state, pattern);
      && (r.Ok? ==> r.value.0.start == start && ValidPattern(r.value.0.pattern) && r.value.0.pattern != []
                    && exists c: nat :: r.value.1 == Drop(text, c))
      && (r.Err? ==> r.error.UnexpectedToken? || r.error == UnexpectedEnd(text) || r.error.InvalidSchedule?)
      && (r.Err? && r.error.UnexpectedToken? ==>
            r.error.input == text
            && exists j :: i <= j < |toks| && toks[j].kind == r.error.kindName && toks[j].text == r.error.text
                           && toks[j].startCol == r.error.pos)
    decreases |toks| - i
  {
    if i < |toks| {
      var tok := toks[i];
      match Lookup(state, tok)
      case None =>
      case Some(Cancel) =>
        assert Drop(text, tok.startCol) == Drop(text, tok.startCol);
        ValidatedIsValid([]);
      case Some(Goto(t)) =>
        if t == END {
          ValidatedIsValid(pattern);
        } else {
          RunOutcome(text, toks, start, i + 1, t, pattern);
        }
      case Some(EmitAndGoto(t)) =>
        var pattern' := pattern + [LiteralEval(tok.text)];
        if t == END {
          ValidatedIsValid(pattern');
        } else {
          RunOutcome(text, toks, start, i + 1, t, pattern');
        }
    }
  }

  /** A text that starts with any other word than `schedule` declares no schedule: all of it is the message. */
  lemma CancelOnOtherWord(text: string, toks: seq<Token>, start: int)
    requires |toks| > 0 && toks[0].kind == "NAME" && toks[0].text != "schedule"
    ensures Parse(text, toks, start) == Ok((Schedule([Literal(0)], start), Drop(text, toks[0].startCol)))
  {
  }

  predicate IsOp(t: Token, s: string) {
    t.kind == "OP" && t.text == s
  }

  /** The token for a pattern element: an int as its decimal numeral, a series as `...`. */
  predicate IsItemToken(t: Token, x: Item) {
    match x
    case Literal(n) => n >= 0 && t.kind == "NUMBER" && t.text == NatToString(n)
    case Series => IsOp(t, "...")
  }

  /**
   * From token `j` on: the elements `items`, separated by commas, with an
   * optional trailing comma, then `]`.
   */
  predicate ListFrom(toks: seq<Token>, j: nat, items: seq<Item>)
    decreases |items|
  {
    j < |toks| &&
    if items == [] then IsOp(toks[j], "]")
    else
      && IsItemToken(toks[j], items[0])
      && j + 1 < |toks|
      && ((IsOp(toks[j + 1], ",") && ListFrom(toks, j + 2, items[1..]))
          || (|items| == 1 && IsOp(toks[j + 1], "]")))
  }

  /** The index of the `]` that closes a list. */
  function ListEnd(toks: seq<Token>, j: nat, items: seq<Item>): (e: nat)
    requires ListFrom(toks, j, items)
    ensures j <= e < |toks| && IsOp(toks[e], "]")
    decreases |items|
  {
    if items == [] then j
    else if IsOp(toks[j + 1], ",") && ListFrom(toks, j + 2, items[1..]) then ListEnd(toks, j + 2, items[1..])
    else j + 1
  }

  /** The grammar's entries for the tokens of a declaration. */
  lemma LookupTable(t: Token)
    ensures t.kind == "INDENT" ==> Lookup(0, t) == Some(Goto(1))
    ensures t.kind == "NAME" && t.text == "schedule" ==> Lookup(0, t) == Some(Goto(2)) && Lookup(1, t) == Some(Goto(2))
    ensures t.kind == "NAME" && t.text != "schedule" ==> Lookup(0, t) == Some(Cancel)
    ensures IsOp(t, "=") ==> Lookup(2, t) == Some(Goto(3))
    ensures IsOp(t, "[") ==> Lookup(3, t) == Some(Goto(4))
    ensures t.kind == "NUMBER" || IsOp(t, "...") ==> Lookup(4, t) == Some(EmitAndGoto(5))
    ensures IsOp(t, "]") ==> Lookup(4, t) == Some(Goto(END)) && Lookup(5, t) == Some(Goto(END))
    ensures IsOp(t, ",") ==> Lookup(5, t) == Some(Goto(4))
  {
  }

  lemma ItemTokenEvaluates(t: Token, x: Item)
    requires IsItemToken(t, x)
    ensures LiteralEval(t.text) == FromItem(x)
  {
    if x.Literal? {
      DecimalRoundTrip(x.value);
    }
  }

  /** Reading a list in state 4 emits its elements, in order, and ends at its `]`. */
  lemma {:induction false} RunList(text: string, toks: seq<Token>, start: int, j: nat, items: seq<Item>, pattern: seq<PyValue>)
    requires ListFrom(toks, j, items)
    ensures Run(text, toks, start, j, 4, pattern)
      == Finish(text, pattern + Raw(items), start, toks[ListEnd(toks, j, items)].endCol)
    decreases |items|
  {
    LookupTable(toks[j]);
    if items == [] {
      assert pattern + Raw(items) == pattern;
    } else {
      LookupTable(toks[j + 1]);
      ItemTokenEvaluates(toks[j], items[0]);
      var pattern' := pattern + [FromItem(items[0])];
      assert Run(text, toks, start, j, 4, pattern) == Run(text, toks, start, j + 1, 5, pattern');
      assert pattern' + Raw(items[1..]) == pattern + Raw(items);
      if IsOp(toks[j + 1], ",") && ListFrom(toks, j + 2, items[1..]) {
        RunList(text, toks, start, j + 2, items[1..], pattern');
      } else {
        assert Raw(items[1..]) == [];
        assert pattern' == pattern + Raw(items);
        assert Run(text, toks, start, j + 1, 5, pattern') == Finish(text, pattern', start, toks[j + 1].endCol);
      }
    }
  }

  /**
   * Round trip: a declaration `schedule = [ ... ]` (after optional
   * indentation) of a valid pattern parses back to exactly that pattern and
   * the given start, and the rest of the message is the text after `]`.
   */
  lemma ParseDeclaration(text: string, toks: seq<Token>, start: int, indent: nat, p: seq<Item>)
    requires indent <= 1 && |toks| > indent + 2
    requires indent == 1 ==> toks[0].kind == "INDENT"
    requires toks[indent].kind == "NAME" && toks[indent].text == "schedule"
    requires IsOp(toks[indent + 1], "=") && IsOp(toks[indent + 2], "[")
    requires ValidPattern(p) && p != [] && ListFrom(toks, indent + 3, p)
    ensures Parse(text, toks, start) == Ok((Schedule(p, start), Drop(text, toks[ListEnd(toks, indent + 3, p)].endCol)))
  {
    DeclarationStart(text, toks, start, indent);
    RunDeclaredList(text, toks, start, indent + 1, p);
  }

  /** An optional indent and the name `schedule` lead to the state that expects `=`. */
  lemma DeclarationStart(text: string, toks: seq<Token>, start: int, indent: nat)
    requires indent <= 1 && |toks| > indent + 1
    requires indent == 1 ==> toks[0].kind == "INDENT"
    requires toks[indent].kind == "NAME" && toks[indent].text == "schedule"
    ensures Run(text, toks, start, 0, 0, []) == Run(text, toks, start, indent + 1, 2, [])
  {
    LookupTable(toks[0]);
    if indent == 1 {
      LookupTable(toks[1]);
      assert Run(text, toks, start, 1, 1, []) == Run(text, toks, start, 2, 2, []);
    }
  }

  /** From `=` on, a declaration runs through the list to its closing bracket. */
  lemma RunDeclaredList(text: string, toks: seq<Token>, start: int, i: nat, p: seq<Item>)
    requires |toks| > i + 1
    requires IsOp(toks[i], "=") && IsOp(toks[i + 1], "[")
    requires ValidPattern(p) && p != [] && ListFrom(toks, i + 2, p)
    ensures Run(text, toks, start, i, 2, []) == Ok((Schedule(p, start), Drop(text, toks[ListEnd(toks, i + 2, p)].endCol)))
  {
    LookupTable(toks[i]);
    LookupTable(toks[i + 1]);
    assert Run(text, toks, start, i, 2, []) == Run(text, toks, start, i + 1, 3, []);
    assert Run(text, toks, start, i + 1, 3, []) == Run(text, toks, start, i + 2, 4, []);
    RunList(text, toks, start, i + 2, p, []);
    ValidPatternAccepted(p);
    assert [] + Raw(p) == Raw(p);
  }

  /** `schedule=[]` declares the default pattern `[0]`. */
  lemma ParseEmptyList(text: string, toks: seq<Token>, start: int)
    requires |toks| > 3
    requires toks[0].kind == "NAME" && toks[0].text == "schedule"
    requires IsOp(toks[1], "=") && IsOp(toks[2], "[") && IsOp(toks[3], "]")
    ensures Parse(text, toks, start) == Ok((Schedule([Literal(0)], start), Drop(text, toks[3].endCol)))
  {
    LookupTable(toks[0]);
    LookupTable(toks[1]);
    LookupTable(toks[2]);
    LookupTable(toks[3]);
    assert Parse(text, toks, start) == Run(text, toks, start, 1, 2, []);
    assert Run(text, toks, start, 1, 2, []) == Run(text, toks, start, 2, 3, []);
    assert Run(text, toks, start, 2, 3, []) == Run(text, toks, start, 3, 4, []);
    assert Validated([]) == Ok([Literal(0)]);
  }

  /** The tokens of `schedule=[1, 2, 4, ..., 8] followed by ...` (up to the first word after `]`). */
  function ExampleTokens(): seq<Token> {
    [Token("NAME", "schedule", 0, 8), Token("OP", "=", 8, 9), Token("OP", "[", 9, 10),
     Token("NUMBER", "1", 10, 11), Token("OP", ",", 11, 12), Token("NUMBER", "2", 13, 14),
     Token("OP", ",", 14, 15), Token("NUMBER", "4", 16, 17), Token("OP", ",", 17, 18),
     Token("OP", "...", 19, 22), Token("OP", ",", 22, 23), Token("NUMBER", "8", 24, 25),
     Token("OP", "]", 25, 26), Token("NAME", "followed", 27, 35)]
  }

  lemma ExampleTokensDeclare()
    ensures ListFrom(ExampleTokens(), 3, [Literal(1), Literal(2), Literal(4), Series, Literal(8)])
    ensures ListEnd(ExampleTokens(), 3, [Literal(1), Literal(2), Literal(4), Series, Literal(8)]) == 12
  {
    var toks := ExampleTokens();
    var p := [Literal(1), Literal(2), Literal(4), Series, Literal(8)];
    assert NatToString(1) == "1" && NatToString(2) == "2" && NatToString(4) == "4" && NatToString(8) == "8";
    assert ListFrom(toks, 11, p[4..]);
    assert ListFrom(toks, 9, p[3..]);
    assert ListFrom(toks, 7, p[2..]);
    assert ListFrom(toks, 5, p[1..]);
  }

  lemma ExampleRemainder()
    ensures Drop("schedule=[1, 2, 4, ..., 8] followed by the system message", 26) == " followed by the system message"
  {
  }

  /** `schedule=[1, 2, 4, ..., 8] followed by the system message`: the pattern, and the text after `]`. */
  lemma ParseDeclarationExample()
    ensures Parse("schedule=[1, 2, 4, ..., 8] followed by the system message", ExampleTokens(), 0)
      == Ok((Schedule([Literal(1), Literal(2), Literal(4), Series, Literal(8)], 0), " followed by the system message"))
  {
    var p := [Literal(1), Literal(2), Literal(4), Series, Literal(8)];
    ExampleTokensDeclare();
    assert ValidPattern(p);
    ParseDeclaration("schedule=[1, 2, 4, ..., 8] followed by the system message", ExampleTokens(), 0, 0, p);
    ExampleRemainder();
  }

  /** A text that does not start with `schedule` is all message, under the default pattern. */
  lemma ParseNoDeclarationExample()
    ensures
      var text := "No schedule at all for this message.";
      var toks := [Token("NAME", "No", 0, 2), Token("NAME", "schedule", 3, 11)];
      Parse(text, toks, 9) == Ok((Schedule([Literal(0)], 9), text))
  {
  }

  /** An unexpected word inside the brackets stops the parser, and the message names it and its column. */
  lemma ParseErrorExample()
    ensures
      var text := "schedule=[ bla bla";
      var toks := [Token("NAME", "schedule", 0, 8), Token("OP", "=", 8, 9), Token("OP", "[", 9, 10),
                   Token("NAME", "bla", 11, 14), Token("NAME", "bla", 15, 18)];
      Parse(text, toks, 9) == Err(UnexpectedToken("NAME", "bla", 11, text))
  {
    var text := "schedule=[ bla bla";
    var toks := [Token("NAME", "schedule", 0, 8), Token("OP", "=", 8, 9), Token("OP", "[", 9, 10),
                 Token("NAME", "bla", 11, 14), Token("NAME", "bla", 15, 18)];
    LookupTable(toks[0]);
    LookupTable(toks[1]);
    LookupTable(toks[2]);
    assert Run(text, toks, 9, 0, 0, []) == Run(text, toks, 9, 1, 2, []);
    assert Run(text, toks, 9, 1, 2, []) == Run(text, toks, 9, 2, 3, []);
    assert Run(text, toks, 9, 2, 3, []) == Run(text, toks, 9, 3, 4, []);
    assert Lookup(4, toks[3]) == None;
  }

  /**
   * A word other than `=` after `schedule` is an error too, not a text without
   * a declaration (the test suite expects the latter; the code raises).
   */
  lemma ParseAfterKeywordExample()
    ensures
      var text := "schedule bla bla bla";
      var toks := [Token("NAME", "schedule", 0, 8), Token("NAME", "bla", 9, 12)];
      Parse(text, toks, 9) == Err(UnexpectedToken("NAME", "bla", 9, text))
  {
    var toks := [Token("NAME", "schedule", 0, 8), Token("NAME", "bla", 9, 12)];
    LookupTable(toks[0]);
    assert Lookup(2, toks[1]) == None;
  }
}
