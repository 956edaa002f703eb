/**
 * The token window over a conversation log: the pure queries of
 * `client.Conversation` over its list of transmissions. Each transmission
 * records the cumulative token total of the conversation up to and including
 * itself, so the cost of a slice is a difference of two totals.
 */
module Window {
  import opened Wrappers
  import opened Errors
  import opened ApiTypes

  /** `get_messages`' default budget, `2**63 - 1`. */
  const DEFAULT_MAX_TOKENS: int := 0x7FFF_FFFF_FFFF_FFFF
  /** `Conversation.MAX_TOKENS`, the budget of a request to the service. */
  const MAX_TOKENS: int := 4096

  /** Every transmission has a first choice, so its role, message and content can be read. */
  predicate WellFormed(log: seq<Transmission>) {
    forall i :: 0 <= i < |log| ==> HasChoice(log[i])
  }

  function Role(t: Transmission): string
    requires HasChoice(t)
  {
    t.choices[0].message.role
  }

  /** `prompt_role_is`: compares the role read through `message`; `IndexError` without choices. */
  function PromptRoleIs(t: Transmission, role: string): (r: Result<bool, Error>)
    ensures r.Err? <==> !HasChoice(t)
    ensures r.Err? ==> r.error == IndexError
    ensures r.Ok? ==> (r.value <==> Role(t) == role)
  {
    match RoleOf(t)
    case Ok(x) => Ok(x == role)
    case Err(e) => Err(e)
  }

  /** `is_system_prompt`. */
  function IsSystemPrompt(t: Transmission): (r: Result<bool, Error>)
    ensures r.Err? <==> !HasChoice(t)
    ensures r.Ok? ==> (r.value <==> Role(t) == "system")
  {
    PromptRoleIs(t, "system")
  }

  /** The test suite's transmissions: both kinds fail without choices and compare the role otherwise. */
  lemma PromptRoleExamples(kind: Kind, usage: Usage)
    ensures PromptRoleIs(Transmission(kind, [], usage), "expected_role") == Err(IndexError)
    ensures PromptRoleIs(Transmission(kind, [Choice(NewMessage("different_role", ""))], usage), "expected_role") == Ok(false)
    ensures PromptRoleIs(Transmission(kind, [Choice(NewMessage("expected_role", ""))], usage), "expected_role") == Ok(true)
    ensures IsSystemPrompt(Transmission(kind, [], usage)) == Err(IndexError)
    ensures IsSystemPrompt(Transmission(kind, [Choice(NewMessage("system", ""))], usage)) == Ok(true)
    ensures IsSystemPrompt(Transmission(kind, [Choice(NewMessage("user", ""))], usage)) == Ok(false)
    ensures IsSystemPrompt(Transmission(kind, [Choice(NewMessage("assistant", ""))], usage)) == Ok(false)
  {
  }

  // ---------------------------------------------------------------------------
  // Token arithmetic
  // ---------------------------------------------------------------------------

  /** The cumulative total after the first `i` transmissions. */
  function Cumulative(log: seq<Transmission>, i: nat): int
    requires i <= |log|
  {
    if i == 0 then 0 else TotalTokensOf(log[i - 1])
  }

  /** Python's `s[i]`, negative indices counting from the end. */
  function PyIndex<T>(s: seq<T>, i: int): (r: Result<T, Error>)
    ensures r.Ok? <==> -|s| <= i < |s|
  {
    if 0 <= i < |s| then Ok(s[i])
    else if -|s| <= i < 0 then Ok(s[|s| + i])
    else Err(IndexError)
  }

  function TotalAt(log: seq<Transmission>, i: int): Result<int, Error> {
    match PyIndex(log, i)
    case Ok(t) => Ok(TotalTokensOf(t))
    case Err(e) => Err(e)
  }

  /** `get_tokens_for_slice(start, stop)`. */
  function TokensForSlice(log: seq<Transmission>, start: int, stop: int): Result<int, Error> {
    if |log| == 0 || stop == start then Ok(0)
    else if stop < start then Err(SliceOrder(start, stop))
    else if start == 0 then TotalAt(log, stop - 1)
    else
      match TotalAt(log, stop - 1)
      case Err(e) => Err(e)
      case Ok(last) =>
        match TotalAt(log, start - 1)
        case Err(e) => Err(e)
        case Ok(first) => Ok(last - first)
  }

  /** Within the log, a slice costs the difference of the cumulative totals at its ends. */
  lemma SliceInRange(log: seq<Transmission>, start: int, stop: int)
    requires 0 <= start <= stop <= |log|
    ensures TokensForSlice(log, start, stop) == Ok(Cumulative(log, stop) - Cumulative(log, start))
  {
  }

  /** The error cases: reversed bounds, and a stop past the end. An empty log costs 0 whatever the bounds. */
  lemma SliceErrors(log: seq<Transmission>, start: int, stop: int)
    ensures |log| == 0 ==> TokensForSlice(log, start, stop) == Ok(0)
    ensures |log| > 0 && stop < start ==> TokensForSlice(log, start, stop) == Err(SliceOrder(start, stop))
    ensures |log| > 0 && start < stop && stop > |log| ==> TokensForSlice(log, start, stop) == Err(IndexError)
  {
  }

  /** Slice costs add up over adjacent slices. */
  lemma SliceAdditive(log: seq<Transmission>, a: int, b: int, c: int)
    requires 0 <= a <= b <= c <= |log|
    ensures TokensForSlice(log, a, b).Ok? && TokensForSlice(log, b, c).Ok? && TokensForSlice(log, a, c).Ok?
    ensures TokensForSlice(log, a, b).value + TokensForSlice(log, b, c).value == TokensForSlice(log, a, c).value
  {
    SliceInRange(log, a, b);
    SliceInRange(log, b, c);
    SliceInRange(log, a, c);
  }

  /** The `total_tokens` property: the last transmission's total, 0 for an empty log. */
  function TotalTokens(log: seq<Transmission>): (r: nat)
    ensures r == Cumulative(log, |log|)
    ensures TokensForSlice(log, 0, |log|) == Ok(r)
  {
    if |log| == 0 then 0 else TotalTokensOf(log[|log| - 1])
  }

  function Sum(costs: seq<int>): int {
    if |costs| == 0 then 0 else Sum(costs[..|costs| - 1]) + costs[|costs| - 1]
  }

  /** Each transmission's total is the sum of the costs of the transmissions up to and including it. */
  predicate RecordsCosts(log: seq<Transmission>, costs: seq<nat>) {
    |costs| == |log| && forall i :: 0 <= i < |log| ==> TotalTokensOf(log[i]) == Sum(costs[..i + 1])
  }

  lemma {:induction false} SumSplit(costs: seq<int>, k: nat)
    requires k <= |costs|
    ensures Sum(costs) == Sum(costs[..k]) + Sum(costs[k..])
    decreases |costs|
  {
    if k < |costs| {
      var last := |costs| - 1;
      SumSplit(costs[..last], k);
      assert costs[..last][..k] == costs[..k];
      assert costs[k..][..|costs[k..]| - 1] == costs[..last][k..];
    } else {
      assert costs[..k] == costs;
    }
  }

  /**
   * When the totals are cumulative sums of per-transmission costs, a slice
   * costs exactly the sum of its transmissions' costs.
   */
  lemma SliceIsSumOfCosts(log: seq<Transmission>, costs: seq<nat>, start: int, stop: int)
    requires RecordsCosts(log, costs) && 0 <= start <= stop <= |log|
    ensures TokensForSlice(log, start, stop) == Ok(Sum(costs[start..stop]))
  {
    SliceInRange(log, start, stop);
    assert Cumulative(log, stop) == Sum(costs[..stop]) by {
      if stop > 0 { assert costs[..stop - 1 + 1] == costs[..stop]; }
    }
    assert Cumulative(log, start) == Sum(costs[..start]) by {
      if start > 0 { assert costs[..start - 1 + 1] == costs[..start]; }
    }
    SumSplit(costs[..stop], start);
    assert costs[..stop][..start] == costs[..start];
    assert costs[..stop][start..] == costs[start..stop];
  }

  /** The cumulative totals never decrease along the log. */
  predicate Monotone(log: seq<Transmission>) {
    forall i, j :: 0 <= i <= j < |log| ==> TotalTokensOf(log[i]) <= TotalTokensOf(log[j])
  }

  lemma {:induction false} SumPrefixGrows(costs: seq<nat>, i: nat, j: nat)
    requires i <= j <= |costs|
    ensures Sum(costs[..i]) <= Sum(costs[..j])
    decreases j - i
  {
    if i < j {
      SumPrefixGrows(costs, i, j - 1);
      assert costs[..j][..j - 1] == costs[..j - 1];
    }
  }

  /** Totals recorded from non-negative costs are monotone. */
  lemma CostsMakeMonotone(log: seq<Transmission>, costs: seq<nat>)
    requires RecordsCosts(log, costs)
    ensures Monotone(log)
  {
    forall i, j | 0 <= i <= j < |log|
      ensures TotalTokensOf(log[i]) <= TotalTokensOf(log[j])
    {
      SumPrefixGrows(costs, i + 1, j + 1);
    }
  }

  // ---------------------------------------------------------------------------
  // Derived values
  // ---------------------------------------------------------------------------

  /** The end of the run of system transmissions that starts at `from`. */
  function SystemRunEnd(log: seq<Transmission>, from: nat): (e: nat)
    requires WellFormed(log) && from <= |log|
    ensures from <= e <= |log|
    ensures forall i :: from <= i < e ==> Role(log[i]) == "system"
    ensures e < |log| ==> Role(log[e]) != "system"
    decreases |log| - from
  {
    if from == |log| || Role(log[from]) != "system" then from else SystemRunEnd(log, from + 1)
  }

  /**
   * `_get_initial_system_messages`: the length of the maximal leading run of
   * system transmissions and the cumulative total at its end (0 when empty).
   */
  function InitialSystemMessages(log: seq<Transmission>): (r: (nat, int))
    requires WellFormed(log)
    ensures r.0 <= |log|
    ensures forall i :: 0 <= i < r.0 ==> Role(log[i]) == "system"
    ensures r.0 < |log| ==> Role(log[r.0]) != "system"
    ensures r.1 == Cumulative(log, r.0)
    ensures r.0 == 0 ==> r.1 == 0
  {
    var n := SystemRunEnd(log, 0);
    (n, if n == 0 then 0 else TotalTokensOf(log[n - 1]))
  }

  function Roles(log: seq<Transmission>): (r: seq<string>)
    requires WellFormed(log)
    ensures |r| == |log| && forall i :: 0 <= i < |log| ==> r[i] == Role(log[i])
  {
    seq(|log|, i requires 0 <= i < |log| => Role(log[i]))
  }

  /** `current_step`: the number of assistant transmissions, that is, of completions so far. */
  function CurrentStep(log: seq<Transmission>): (r: nat)
    requires WellFormed(log)
    ensures r <= |log|
  {
    if |log| == 0 then 0
    else CurrentStep(log[..|log| - 1]) + (if Role(log[|log| - 1]) == "assistant" then 1 else 0)
  }

  /** The step is the number of assistant roles in the log. */
  lemma {:induction false} CurrentStepCountsAssistants(log: seq<Transmission>)
    requires WellFormed(log)
    ensures CurrentStep(log) == multiset(Roles(log))["assistant"]
    decreases |log|
  {
    if |log| > 0 {
      var front := log[..|log| - 1];
      CurrentStepCountsAssistants(front);
      assert Roles(log) == Roles(front) + [Role(log[|log| - 1])];
    }
  }

  // ---------------------------------------------------------------------------
  // Budget selection: get_transmissions
  // ---------------------------------------------------------------------------

  /** The tail from `i`, with `pinned` tokens of leading context, fits the budget. */
  predicate Fits(log: seq<Transmission>, i: nat, pinned: int, maxTokens: int)
    requires i <= |log|
  {
    pinned + (Cumulative(log, |log|) - Cumulative(log, i)) <= maxTokens
  }

  /** The least index from `from` on whose tail fits, if any. */
  function FirstFit(log: seq<Transmission>, from: nat, pinned: int, maxTokens: int): (r: Option<nat>)
    requires from <= |log|
    ensures r.Some? ==> from <= r.value < |log| && Fits(log, r.value, pinned, maxTokens)
    ensures r.Some? ==> forall j :: from <= j < r.value ==> !Fits(log, j, pinned, maxTokens)
    ensures r.None? ==> forall j :: from <= j < |log| ==> !Fits(log, j, pinned, maxTokens)
    decreases |log| - from
  {
    if from == |log| then None
    else if Fits(log, from, pinned, maxTokens) then Some(from)
    else FirstFit(log, from + 1, pinned, maxTokens)
  }

  /** The cost of the last transmission alone, as the fallback computes it. */
  function LastCost(log: seq<Transmission>): int {
    if |log| == 0 then 0 else Cumulative(log, |log|) - Cumulative(log, |log| - 1)
  }

  /**
   * The selection policy, as the pair `(keep, from)`: `get_transmissions`
   * returns `log[..keep] + log[from..]`. The whole log when it fits; else the
   * leading system run and the longest tail after it that fits beside it; else
   * the last transmission alone; else an error.
   */
  function Selection(log: seq<Transmission>, maxTokens: int): (r: Result<(nat, nat), Error>)
    requires WellFormed(log)
    ensures r.Ok? ==> r.value.0 <= r.value.1 <= |log|
    ensures r.Ok? ==>
      Cumulative(log, r.value.0) + (Cumulative(log, |log|) - Cumulative(log, r.value.1)) <= maxTokens
    ensures r.Ok? && |log| > 0 ==> r.value.1 < |log| || r.value.0 == |log|
    ensures TotalTokens(log) <= maxTokens <==> r == Ok((|log|, |log|))
    ensures r.Ok? && TotalTokens(log) > maxTokens ==>
      var (keep, from) := r.value;
      var (run, runTokens) := InitialSystemMessages(log);
      && (keep == run || (keep == 0 && from == |log| - 1))
      && (keep == run ==> run <= from && forall j :: run <= j < from ==> !Fits(log, j, runTokens, maxTokens))
      && (keep == 0 && 0 < run ==> forall j :: run <= j < |log| ==> !Fits(log, j, runTokens, maxTokens))
    ensures r.Err? <==>
      TotalTokens(log) > maxTokens && LastCost(log) > maxTokens
      && FirstFit(log, InitialSystemMessages(log).0, InitialSystemMessages(log).1, maxTokens).None?
    ensures r.Err? ==> r.error == BudgetExceeded(LastCost(log), maxTokens)
  {
    if TotalTokens(log) <= maxTokens then Ok((|log|, |log|))
    else
      var (run, runTokens) := InitialSystemMessages(log);
      match FirstFit(log, run, runTokens, maxTokens)
      case Some(i) => Ok((run, i))
      case None =>
        if LastCost(log) > maxTokens then Err(BudgetExceeded(LastCost(log), maxTokens))
        else Ok((0, |log| - 1))
  }

  /** The transmissions `get_transmissions(max_tokens)` returns. */
  function Select(log: seq<Transmission>, maxTokens: int): (r: Result<seq<Transmission>, Error>)
    requires WellFormed(log)
    ensures r.Ok? ==> WellFormed(r.value)
    ensures r.Ok? && |log| > 0 ==> |r.value| > 0 && r.value[|r.value| - 1] == log[|log| - 1]
    ensures r.Ok? ==> multiset(r.value) <= multiset(log)
    ensures Selection(log, maxTokens).Ok? ==>
      var (keep, from) := Selection(log, maxTokens).value;
      r == Ok(log[..keep] + log[from..])
    ensures Selection(log, maxTokens).Err? ==> r == Err(Selection(log, maxTokens).error)
  {
    match Selection(log, maxTokens)
    case Ok((keep, from)) =>
      assert log == log[..keep] + log[keep..from] + log[from..];
      Ok(log[..keep] + log[from..])
    case Err(e) => Err(e)
  }

  /** The `message` of each transmission, in order. */
  function Messages(log: seq<Transmission>): (r: seq<Message>)
    requires WellFormed(log)
    ensures |r| == |log| && forall i :: 0 <= i < |log| ==> MessageOf(log[i]) == Ok(r[i])
  {
    seq(|log|, i requires 0 <= i < |log| => log[i].choices[0].message)
  }

  /** `get_messages(max_tokens)`: the messages of the selected transmissions, or the selection's error. */
  function MessagesWithin(log: seq<Transmission>, maxTokens: int): (r: Result<seq<Message>, Error>)
    requires WellFormed(log)
    ensures r.Ok? <==> Select(log, maxTokens).Ok?
    ensures r.Ok? ==> |r.value| <= |log|
    ensures r.Ok? && |log| > 0 ==> |r.value| > 0 && r.value[|r.value| - 1] == log[|log| - 1].choices[0].message
    ensures r.Err? ==> r == Err(BudgetExceeded(LastCost(log), maxTokens))
  {
    match Select(log, maxTokens)
    case Ok(kept) => Ok(Messages(kept))
    case Err(e) => Err(e)
  }

  /** The request a conversation appends next: one message, costing the log's total plus its own tokens. */
  function NextRequest(log: seq<Transmission>, count: seq<Message> -> nat, role: string, content: string)
    : (t: Transmission)
    ensures MessageOf(t) == Ok(NewMessage(role, content)) && t.kind == Request
    ensures TotalTokensOf(t) == TotalTokens(log) + count([NewMessage(role, content)])
  {
    MakeRequest(NewMessage(role, content), TotalTokens(log) + count([NewMessage(role, content)]))
  }

  /** Whether some system transmission already has this content (the `skip_if_exists` test). */
  predicate HasSystemContent(log: seq<Transmission>, content: string)
    requires WellFormed(log)
  {
    exists i :: 0 <= i < |log| && Role(log[i]) == "system" && log[i].choices[0].message.content == content
  }

  lemma MessagesDistribute(a: seq<Transmission>, b: seq<Transmission>)
    requires WellFormed(a) && WellFormed(b)
    ensures WellFormed(a + b) && Messages(a + b) == Messages(a) + Messages(b)
  {
    assert WellFormed(a + b) by {
      forall i | 0 <= i < |a + b| ensures HasChoice((a + b)[i]) {
        if i >= |a| { assert (a + b)[i] == b[i - |a|]; }
      }
    }
  }

  /** A log whose cumulative totals fit the budget is returned whole. */
  lemma WholeLogFits(log: seq<Transmission>, maxTokens: int)
    requires WellFormed(log) && TotalTokens(log) <= maxTokens
    ensures Select(log, maxTokens) == Ok(log)
  {
    assert log[..|log|] + log[|log|..] == log;
  }

  /** With monotone totals, a tail that fits keeps fitting as it is shortened. */
  lemma FitsUpwardClosed(log: seq<Transmission>, i: nat, j: nat, pinned: int, maxTokens: int)
    requires Monotone(log) && i <= j <= |log| && Fits(log, i, pinned, maxTokens)
    ensures Fits(log, j, pinned, maxTokens)
  {
  }

  /**
   * With monotone totals, the leading system run is dropped exactly when the
   * last transmission alone does not fit beside it.
   */
  lemma PinnedDroppedIffLastDoesNotFit(log: seq<Transmission>, maxTokens: int)
    requires WellFormed(log) && Monotone(log) && TotalTokens(log) > maxTokens
    requires InitialSystemMessages(log).0 < |log|
    ensures var (run, runTokens) := InitialSystemMessages(log);
      FirstFit(log, run, runTokens, maxTokens).None? <==> !Fits(log, |log| - 1, runTokens, maxTokens)
  {
    var (run, runTokens) := InitialSystemMessages(log);
    var r := FirstFit(log, run, runTokens, maxTokens);
    if r.Some? {
      FitsUpwardClosed(log, r.value, |log| - 1, runTokens, maxTokens);
    }
  }

  // ---------------------------------------------------------------------------
  // Examples
  // ---------------------------------------------------------------------------

  function Sent(role: string, content: string, total: nat): Transmission {
    MakeRequest(NewMessage(role, content), total)
  }

  /** The `/history` test log: system 48, user 4048, assistant 4097. */
  function HistoryLog(): seq<Transmission> {
    [Sent("system", "1", 48), Sent("user", "2", 4048), MakeResponse(NewMessage("assistant", "3"), 4097)]
  }

  /** The `/history` test budgets and what each selects. */
  lemma HistoryExamples()
    ensures Selection(HistoryLog(), DEFAULT_MAX_TOKENS) == Ok((3, 3))
    ensures Selection(HistoryLog(), 4097) == Ok((3, 3))
    ensures Selection(HistoryLog(), 4096) == Ok((1, 2))
    ensures Selection(HistoryLog(), 97) == Ok((1, 2))
    ensures Selection(HistoryLog(), 96) == Ok((0, 2))
    ensures Selection(HistoryLog(), 49) == Ok((0, 2))
    ensures Selection(HistoryLog(), 48) == Err(BudgetExceeded(49, 48))
  {
    var log := HistoryLog();
    assert InitialSystemMessages(log) == (1, 48) by {
      assert Role(log[0]) == "system" && Role(log[1]) == "user";
    }
  }

  /** `get_messages()` on the `/history` test log: every message. */
  lemma HistoryMessagesUnbounded()
    ensures MessagesWithin(HistoryLog(), DEFAULT_MAX_TOKENS) == Ok(Messages(HistoryLog()))
  {
    var log := HistoryLog();
    HistoryExamples();
    assert log[..3] + log[3..] == log;
  }

  /** `get_messages(MAX_TOKENS)` on the `/history` test log: the system message and the last one. */
  lemma HistoryMessagesLimited()
    ensures MessagesWithin(HistoryLog(), MAX_TOKENS) == Ok([NewMessage("system", "1"), NewMessage("assistant", "3")])
  {
    var log := HistoryLog();
    HistoryExamples();
    assert log[..1] + log[2..] == [log[0], log[2]];
    assert Messages([log[0], log[2]]) == [NewMessage("system", "1"), NewMessage("assistant", "3")];
  }

  /** `get_messages(96)` on the `/history` test log: the last message alone. */
  lemma HistoryMessagesLastOnly()
    ensures MessagesWithin(HistoryLog(), 96) == Ok([NewMessage("assistant", "3")])
  {
    var log := HistoryLog();
    HistoryExamples();
    assert log[..0] + log[2..] == [log[2]];
    assert Messages([log[2]]) == [NewMessage("assistant", "3")];
  }

  /** Totals 40, 50, 60, 70 after one system message, budget 61: the system message and the last two. */
  lemma SuffixExample()
    ensures
      var log := [Sent("system", "s", 40), Sent("user", "a", 50), Sent("assistant", "b", 60), Sent("user", "c", 70)];
      Select(log, 61) == Ok([log[0], log[2], log[3]])
  {
    var log := [Sent("system", "s", 40), Sent("user", "a", 50), Sent("assistant", "b", 60), Sent("user", "c", 70)];
    assert Role(log[0]) == "system" && Role(log[1]) == "user";
    assert InitialSystemMessages(log) == (1, 40);
    assert Selection(log, 61) == Ok((1, 2));
    assert log[..1] + log[2..] == [log[0], log[2], log[3]];
  }
}
