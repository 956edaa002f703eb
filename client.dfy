/**
 * `client.Conversation`: the conversation log, the registered system messages
 * with their schedules, and the operations that change them.
 */
module Client {
  import opened Wrappers
  import opened Errors
  import opened ApiTypes
  import opened Schedules
  import opened Window

  datatype ScheduledMessage = ScheduledMessage(message: Message, schedule: Schedule)

  /** The `delta` of one streamed chunk: its `role` and `content` keys, each present or not. */
  datatype Delta = Delta(role: Option<string>, content: Option<string>)

  // ---------------------------------------------------------------------------
  // Scheduling, as functions of the log and the registrations
  // ---------------------------------------------------------------------------

  /**
   * The requests `get_scheduled_system_messages(step)` yields: one per
   * registration whose schedule matches the step, in registration order, each
   * costing `base` (the log's total before the call) plus its own tokens.
   */
  function DueRequests(scheds: seq<ScheduledMessage>, step: int, base: nat, count: seq<Message> -> nat)
    : (r: seq<Transmission>)
    ensures |r| <= |scheds| && WellFormed(r)
  {
    if |scheds| == 0 then []
    else
      var front := scheds[..|scheds| - 1];
      var last := scheds[|scheds| - 1];
      DueRequests(front, step, base, count)
      + (if Matches(last.schedule, step) then [MakeRequest(last.message, base + count([last.message]))] else [])
  }

  /** The message contents of transmissions, in order. */
  function Contents(log: seq<Transmission>): (r: seq<string>)
    requires WellFormed(log)
    ensures |r| == |log| && forall i :: 0 <= i < |log| ==> ContentOf(log[i]) == Ok(r[i])
  {
    seq(|log|, i requires 0 <= i < |log| => log[i].choices[0].message.content)
  }

  /** A past system transmission that one of the new ones repeats. */
  predicate Stale(t: Transmission, contents: seq<string>)
    requires HasChoice(t)
  {
    Role(t) == "system" && t.choices[0].message.content in contents
  }

  /** The log with the stale system transmissions filtered out, in order. */
  function RemoveStale(log: seq<Transmission>, contents: seq<string>): (r: seq<Transmission>)
    requires WellFormed(log)
    ensures |r| <= |log| && WellFormed(r)
  {
    if |log| == 0 then []
    else
      var front := log[..|log| - 1];
      var last := log[|log| - 1];
      assert log == front + [last];
      RemoveStale(front, contents) + (if Stale(last, contents) then [] else [last])
  }

  /** The log after `add_scheduled_system_messages`: stale copies removed, then the due requests appended. */
  function AfterScheduling(log: seq<Transmission>, scheds: seq<ScheduledMessage>, count: seq<Message> -> nat)
    : (r: seq<Transmission>)
    requires WellFormed(log)
    ensures WellFormed(r)
  {
    var due := DueRequests(scheds, CurrentStep(log), TotalTokens(log), count);
    MessagesDistribute(RemoveStale(log, Contents(due)), due);
    RemoveStale(log, Contents(due)) + due
  }

  // ---------------------------------------------------------------------------
  // Properties of scheduling
  // ---------------------------------------------------------------------------

  /** A request is due exactly when it is the request of a registration whose schedule matches the step. */
  lemma {:induction false} DueRequestsMembers(scheds: seq<ScheduledMessage>, step: int, base: nat, count: seq<Message> -> nat)
    ensures forall t :: t in DueRequests(scheds, step, base, count) ==>
      exists i :: 0 <= i < |scheds| && Matches(scheds[i].schedule, step)
                  && t == MakeRequest(scheds[i].message, base + count([scheds[i].message]))
    ensures forall i :: 0 <= i < |scheds| && Matches(scheds[i].schedule, step) ==>
      MakeRequest(scheds[i].message, base + count([scheds[i].message])) in DueRequests(scheds, step, base, count)
    decreases |scheds|
  {
    if |scheds| > 0 {
      var front := scheds[..|scheds| - 1];
      DueRequestsMembers(front, step, base, count);
      assert forall i :: 0 <= i < |front| ==> front[i] == scheds[i];
    }
  }

  /**
   * Registrations are decided by the corrected `should_send`: with the pattern
   * `[0, 5, ..., 7]` at step 7 one request is due, where the source's
   * `should_send` yields none.
   */
  lemma DueRequestsUseCorrectedSchedule(count: seq<Message> -> nat)
    ensures var reg := ScheduledMessage(NewMessage("system", "x"), Schedule([Literal(0), Literal(5), Series, Literal(7)], 0));
      && ValidPattern(reg.schedule.pattern) && !ShouldSendAsWritten(reg.schedule, 7)
      && DueRequests([reg], 7, 0, count) == [MakeRequest(reg.message, count([reg.message]))]
  {
    AsWrittenMissesClosingInt();
    var reg := ScheduledMessage(NewMessage("system", "x"), Schedule([Literal(0), Literal(5), Series, Literal(7)], 0));
    assert [reg][..0] == [];
  }

  /** Filtering keeps exactly the transmissions that are not stale. */
  lemma {:induction false} RemoveStaleMembers(log: seq<Transmission>, contents: seq<string>)
    requires WellFormed(log)
    ensures forall t :: t in RemoveStale(log, contents) <==> t in log && !Stale(t, contents)
    decreases |log|
  {
    if |log| > 0 {
      var front := log[..|log| - 1];
      RemoveStaleMembers(front, contents);
      assert log == front + [log[|log| - 1]];
    }
  }

  /** Filtering distributes over concatenation. */
  lemma {:induction false} RemoveStaleConcat(a: seq<Transmission>, b: seq<Transmission>, contents: seq<string>)
    requires WellFormed(a) && WellFormed(b)
    ensures WellFormed(a + b)
    ensures RemoveStale(a + b, contents) == RemoveStale(a, contents) + RemoveStale(b, contents)
    decreases |b|
  {
    MessagesDistribute(a, b);
    if |b| > 0 {
      var front := b[..|b| - 1];
      assert (a + b)[..|a + b| - 1] == a + front;
      MessagesDistribute(a, front);
      RemoveStaleConcat(a, front, contents);
    } else {
      assert a + b == a;
    }
  }

  /** Filtering twice by the same contents is filtering once. */
  lemma {:induction false} RemoveStaleIdempotent(log: seq<Transmission>, contents: seq<string>)
    requires WellFormed(log)
    ensures RemoveStale(RemoveStale(log, contents), contents) == RemoveStale(log, contents)
    decreases |log|
  {
    if |log| > 0 {
      var front := log[..|log| - 1];
      var last := log[|log| - 1];
      RemoveStaleIdempotent(front, contents);
      var tail := if Stale(last, contents) then [] else [last];
      RemoveStaleConcat(RemoveStale(front, contents), tail, contents);
      if !Stale(last, contents) {
        assert RemoveStale(tail, contents) == tail by {
          assert tail[..0] == [];
        }
      }
    }
  }

  /** A log of stale transmissions only is filtered away entirely. */
  lemma {:induction false} RemoveAllStale(log: seq<Transmission>, contents: seq<string>)
    requires WellFormed(log) && forall i :: 0 <= i < |log| ==> Stale(log[i], contents)
    ensures RemoveStale(log, contents) == []
    decreases |log|
  {
    if |log| > 0 {
      RemoveAllStale(log[..|log| - 1], contents);
    }
  }

  lemma CurrentStepConcat(a: seq<Transmission>, b: seq<Transmission>)
    requires WellFormed(a) && WellFormed(b)
    ensures WellFormed(a + b) && CurrentStep(a + b) == CurrentStep(a) + CurrentStep(b)
  {
    MessagesDistribute(a, b);
    assert Roles(a + b) == Roles(a) + Roles(b);
    CurrentStepCountsAssistants(a);
    CurrentStepCountsAssistants(b);
    CurrentStepCountsAssistants(a + b);
  }

  /** Removing system transmissions leaves the number of completions as it was. */
  lemma {:induction false} RemoveStaleKeepsStep(log: seq<Transmission>, contents: seq<string>)
    requires WellFormed(log)
    ensures CurrentStep(RemoveStale(log, contents)) == CurrentStep(log)
    decreases |log|
  {
    if |log| > 0 {
      var front := log[..|log| - 1];
      var last := log[|log| - 1];
      RemoveStaleKeepsStep(front, contents);
      var kept := RemoveStale(front, contents);
      assert CurrentStep(log) == CurrentStep(front) + (if Role(last) == "assistant" then 1 else 0);
      if !Stale(last, contents) {
        assert RemoveStale(log, contents) == kept + [last];
        assert (kept + [last])[..|kept + [last]| - 1] == kept;
      } else {
        assert RemoveStale(log, contents) == kept + [];
        assert kept + [] == kept;
      }
    }
  }

  /** Registrations of system messages only. */
  predicate SystemRegistrations(scheds: seq<ScheduledMessage>) {
    forall i :: 0 <= i < |scheds| ==> scheds[i].message.role == "system"
  }

  /** The due requests of system registrations are system transmissions, stale with respect to their own contents. */
  lemma DueAreStale(scheds: seq<ScheduledMessage>, step: int, base: nat, count: seq<Message> -> nat)
    requires SystemRegistrations(scheds)
    ensures var due := DueRequests(scheds, step, base, count);
      && CurrentStep(due) == 0
      && forall i :: 0 <= i < |due| ==> Stale(due[i], Contents(due))
  {
    var due := DueRequests(scheds, step, base, count);
    DueRequestsMembers(scheds, step, base, count);
    forall i | 0 <= i < |due|
      ensures Role(due[i]) == "system"
    {
      assert due[i] in due;
    }
    assert multiset(Roles(due))["assistant"] == 0 by {
      assert "assistant" !in Roles(due);
    }
    CurrentStepCountsAssistants(due);
    forall i | 0 <= i < |due|
      ensures Stale(due[i], Contents(due))
    {
      assert Contents(due)[i] == due[i].choices[0].message.content;
    }
  }

  /** Scheduling system messages does not advance the conversation's step. */
  lemma SchedulingKeepsStep(log: seq<Transmission>, scheds: seq<ScheduledMessage>, count: seq<Message> -> nat)
    requires WellFormed(log) && SystemRegistrations(scheds)
    ensures CurrentStep(AfterScheduling(log, scheds, count)) == CurrentStep(log)
  {
    var due := DueRequests(scheds, CurrentStep(log), TotalTokens(log), count);
    DueAreStale(scheds, CurrentStep(log), TotalTokens(log), count);
    CurrentStepConcat(RemoveStale(log, Contents(due)), due);
    RemoveStaleKeepsStep(log, Contents(due));
  }

  /** Which requests are due, and their messages, do not depend on the base total. */
  lemma {:induction false} DueMessagesIgnoreBase(scheds: seq<ScheduledMessage>, step: int, b1: nat, b2: nat, count: seq<Message> -> nat)
    ensures Messages(DueRequests(scheds, step, b1, count)) == Messages(DueRequests(scheds, step, b2, count))
    ensures Contents(DueRequests(scheds, step, b1, count)) == Contents(DueRequests(scheds, step, b2, count))
    decreases |scheds|
  {
    if |scheds| > 0 {
      var front := scheds[..|scheds| - 1];
      var last := scheds[|scheds| - 1];
      DueMessagesIgnoreBase(front, step, b1, b2, count);
      var d1 := DueRequests(front, step, b1, count);
      var d2 := DueRequests(front, step, b2, count);
      var t1: seq<Transmission> := if Matches(last.schedule, step) then [MakeRequest(last.message, b1 + count([last.message]))] else [];
      var t2: seq<Transmission> := if Matches(last.schedule, step) then [MakeRequest(last.message, b2 + count([last.message]))] else [];
      MessagesDistribute(d1, t1);
      MessagesDistribute(d2, t2);
      assert Contents(d1 + t1) == Contents(d1) + Contents(t1);
      assert Contents(d2 + t2) == Contents(d2) + Contents(t2);
    }
  }

  /**
   * Scheduling a second time at the same step gives the same messages: the
   * first call's copies are stale and are replaced by equal ones. (The
   * replacements' totals are recomputed from the longer log, so the
   * transmissions themselves can differ.)
   */
  lemma SchedulingIdempotentOnMessages(log: seq<Transmission>, scheds: seq<ScheduledMessage>, count: seq<Message> -> nat)
    requires WellFormed(log) && SystemRegistrations(scheds)
    ensures Messages(AfterScheduling(AfterScheduling(log, scheds, count), scheds, count))
      == Messages(AfterScheduling(log, scheds, count))
  {
    var step := CurrentStep(log);
    var due := DueRequests(scheds, step, TotalTokens(log), count);
    var kept := RemoveStale(log, Contents(due));
    var log1 := AfterScheduling(log, scheds, count);
    assert log1 == kept + due;
    SchedulingKeepsStep(log, scheds, count);
    var due2 := DueRequests(scheds, step, TotalTokens(log1), count);
    DueMessagesIgnoreBase(scheds, step, TotalTokens(log), TotalTokens(log1), count);
    assert AfterScheduling(log1, scheds, count) == RemoveStale(log1, Contents(due)) + due2;
    RemoveStaleConcat(kept, due, Contents(due));
    RemoveStaleIdempotent(log, Contents(due));
    DueAreStale(scheds, step, TotalTokens(log), count);
    RemoveAllStale(due, Contents(due));
    assert RemoveStale(log1, Contents(due)) == kept;
    MessagesDistribute(kept, due2);
    MessagesDistribute(kept, due);
  }

  // ---------------------------------------------------------------------------
  // The streamed reply
  // ---------------------------------------------------------------------------

  /** The role in force after these deltas: the last one given, `""` before any. */
  function StreamRole(deltas: seq<Delta>): string {
    if |deltas| == 0 then ""
    else match deltas[|deltas| - 1].role
      case Some(role) => role
      case None => StreamRole(deltas[..|deltas| - 1])
  }

  /** Delta `i` contributes its content: the role in force is the assistant's and the content is present and non-empty. */
  predicate Contributes(deltas: seq<Delta>, i: int)
    requires 0 <= i < |deltas|
  {
    StreamRole(deltas[..i + 1]) == "assistant" && deltas[i].content.Some? && deltas[i].content.value != ""
  }

  /** The pieces of the reply, in order. */
  function StreamPieces(deltas: seq<Delta>): (r: seq<string>)
    ensures |r| <= |deltas|
    ensures r == [] <==> forall i :: 0 <= i < |deltas| ==> !Contributes(deltas, i)
    ensures forall i :: 0 <= i < |r| ==> r[i] != ""
  {
    if |deltas| == 0 then []
    else
      var front := deltas[..|deltas| - 1];
      forall i | 0 <= i < |front|
        ensures Contributes(front, i) == Contributes(deltas, i)
      {
        assert front[..i + 1] == deltas[..i + 1];
      }
      assert deltas[..|deltas|] == deltas;
      var d := deltas[|deltas| - 1];
      StreamPieces(front) + (if Contributes(deltas, |deltas| - 1) then [d.content.value] else [])
  }

  /** `"".join(pieces)`. */
  function Concat(pieces: seq<string>): string {
    if |pieces| == 0 then "" else Concat(pieces[..|pieces| - 1]) + pieces[|pieces| - 1]
  }

  lemma {:induction false} ConcatNonEmpty(pieces: seq<string>)
    requires forall i :: 0 <= i < |pieces| ==> pieces[i] != ""
    ensures |Concat(pieces)| >= |pieces|
    ensures Concat(pieces) == "" <==> pieces == []
    decreases |pieces|
  {
    if |pieces| > 0 {
      ConcatNonEmpty(pieces[..|pieces| - 1]);
    }
  }

  /** The log a turn sends from: the scheduled system messages, then the prompt. */
  function Outgoing(log: seq<Transmission>, scheds: seq<ScheduledMessage>, count: seq<Message> -> nat, text: string)
    : (r: seq<Transmission>)
    requires WellFormed(log)
    ensures WellFormed(r) && |r| > 0 && r[|r| - 1] == NextRequest(log, count, "user", text)
  {
    MessagesDistribute(AfterScheduling(log, scheds, count), [NextRequest(log, count, "user", text)]);
    AfterScheduling(log, scheds, count) + [NextRequest(log, count, "user", text)]
  }

  /** The assistant's reply to a prompt: the streamed pieces joined, costing the prompt's total plus its own tokens. */
  function Reply(prompt: Transmission, pieces: seq<string>, count: seq<Message> -> nat): (t: Transmission)
    ensures MessageOf(t) == Ok(NewMessage("assistant", Concat(pieces))) && t.kind == Response
    ensures TotalTokensOf(t) == TotalTokensOf(prompt) + count([NewMessage("assistant", Concat(pieces))])
  {
    var message := NewMessage("assistant", Concat(pieces));
    MakeResponse(message, TotalTokensOf(prompt) + count([message]))
  }

  /**
   * `say_and_listen(text)` on a log, with the reply streamed as `deltas`: the
   * log it leaves and the messages it sends. The due system messages and the
   * prompt are written first; then the request is selected within
   * `MAX_TOKENS`, and a non-empty reply is appended.
   */
  function Exchange(log: seq<Transmission>, scheds: seq<ScheduledMessage>, count: seq<Message> -> nat,
                    text: string, deltas: seq<Delta>): (r: (seq<Transmission>, Result<seq<Message>, Error>))
    requires WellFormed(log)
  {
    var sent := Outgoing(log, scheds, count, text);
    var payload := MessagesWithin(sent, MAX_TOKENS);
    if payload.Err? || StreamPieces(deltas) == [] then (sent, payload)
    else (sent + [Reply(sent[|sent| - 1], StreamPieces(deltas), count)], payload)
  }

  /**
   * What a turn leaves: the written log, with the reply after it when the
   * request could be selected and the reply is not empty; the log stays well
   * formed, and the messages sent are the selection of the written log.
   */
  lemma ExchangeEffect(log: seq<Transmission>, scheds: seq<ScheduledMessage>, count: seq<Message> -> nat,
                       text: string, deltas: seq<Delta>)
    requires WellFormed(log)
    ensures
      var (after, payload) := Exchange(log, scheds, count, text, deltas);
      var sent := Outgoing(log, scheds, count, text);
      && WellFormed(after) && sent <= after
      && payload == MessagesWithin(sent, MAX_TOKENS)
      && (payload.Err? || StreamPieces(deltas) == [] ==> after == sent)
      && (payload.Ok? && StreamPieces(deltas) != [] ==>
            && |after| == |sent| + 1
            && MessageOf(after[|sent|]) == Ok(NewMessage("assistant", Concat(StreamPieces(deltas))))
            && TotalTokens(after) == TotalTokens(sent) + count([NewMessage("assistant", Concat(StreamPieces(deltas)))]))
  {
    var sent := Outgoing(log, scheds, count, text);
    MessagesDistribute(sent, [Reply(sent[|sent| - 1], StreamPieces(deltas), count)]);
  }

  /**
   * The loop over the streamed chunks in `say_and_listen`: the role carries
   * over from chunk to chunk, and only non-empty assistant content is kept.
   */
  method CollectReply(deltas: seq<Delta>) returns (pieces: seq<string>)
    ensures pieces == StreamPieces(deltas)
  {
    pieces := [];
    var role := "";
    for i := 0 to |deltas|
      invariant role == StreamRole(deltas[..i])
      invariant pieces == StreamPieces(deltas[..i])
    {
      assert deltas[..i + 1][..i] == deltas[..i];
      var delta := deltas[i];
      role := delta.role.GetOr(role);
      assert role == StreamRole(deltas[..i + 1]);
      assert deltas[..i + 1][i] == delta;
      assert deltas[..i + 1][..i + 1] == deltas[..i + 1];
      var content := delta.content;
      if role != "assistant" || content.None? || content.value == "" {
        continue;
      }
      pieces := pieces + [content.value];
    }
    assert deltas[..|deltas|] == deltas;
  }

  // ---------------------------------------------------------------------------
  // The conversation
  // ---------------------------------------------------------------------------

  class Conversation {
    var transmissions: seq<Transmission>
    var schedules: seq<ScheduledMessage>
    /** `num_tokens_from_messages`: the token cost of messages, from an encoding the model does not include. */
    const tokenizer: seq<Message> -> nat

    /** Every transmission has a choice; every registration is a system message with a validated schedule. */
    predicate Valid()
      reads this
    {
      && WellFormed(transmissions)
      && SystemRegistrations(schedules)
      && forall i :: 0 <= i < |schedules| ==> ValidPattern(schedules[i].schedule.pattern)
    }

    constructor(tokenizer: seq<Message> -> nat)
      ensures Valid() && transmissions == [] && schedules == [] && this.tokenizer == tokenizer
    {
      transmissions := [];
      schedules := [];
      this.tokenizer := tokenizer;
    }

    /** `get_transmissions(max_tokens)`: the for/else scan for the first tail that fits. */
    method GetTransmissions(maxTokens: int) returns (r: Result<seq<Transmission>, Error>)
      requires Valid()
      ensures r == Select(transmissions, maxTokens)
    {
      var log := transmissions;
      if TotalTokens(log) <= maxTokens {
        assert log[..|log|] + log[|log|..] == log;
        return Ok(log);
      }
      var n := |log|;
      var (run, runTokens) := InitialSystemMessages(log);
      var index := run;
      var found := false;
      while index < n
        invariant run <= index <= n
        invariant FirstFit(log, index, runTokens, maxTokens) == FirstFit(log, run, runTokens, maxTokens)
        decreases n - index
      {
        var tail := TokensForSlice(log, index, n);
        SliceInRange(log, index, n);
        if runTokens + tail.value <= maxTokens {
          found := true;
          break;
        }
        index := index + 1;
      }
      if !found {
        index := n - 1;
        var last := TokensForSlice(log, index, n);
        if n > 0 {
          SliceInRange(log, index, n);
        }
        if last.value > maxTokens {
          return Err(BudgetExceeded(last.value, maxTokens));
        }
        run := 0;
      }
      return Ok(log[..run] + log[index..]);
    }

    /** `get_messages(max_tokens)`: the selected transmissions' messages. */
    method GetMessages(maxTokens: int := DEFAULT_MAX_TOKENS) returns (r: Result<seq<Message>, Error>)
      requires Valid()
      ensures r == MessagesWithin(transmissions, maxTokens)
    {
      var selected := GetTransmissions(maxTokens);
      match selected
      case Ok(log) => return Ok(Messages(log));
      case Err(e) => return Err(e);
    }

    /** `register_system_message(content, schedule, skip_if_exists)`. */
    method RegisterSystemMessage(content: string, schedule: Schedule, skipIfExists: bool := false)
      requires Valid() && ValidPattern(schedule.pattern)
      modifies this
      ensures Valid()
      ensures transmissions == old(transmissions)
      ensures skipIfExists && HasSystemContent(old(transmissions), content) ==> schedules == old(schedules)
      ensures !(skipIfExists && HasSystemContent(old(transmissions), content)) ==>
        schedules == old(schedules) + [ScheduledMessage(NewMessage("system", content), schedule)]
    {
      if skipIfExists && HasSystemContent(transmissions, content) {
        return;
      }
      var message := NewMessage("system", content);
      schedules := schedules + [ScheduledMessage(message, schedule)];
    }

    /** `get_scheduled_system_messages(step)`, decided by the corrected `should_send`. */
    method GetScheduledSystemMessages(step: int) returns (r: seq<Transmission>)
      requires Valid()
      ensures r == DueRequests(schedules, step, TotalTokens(transmissions), tokenizer)
    {
      r := [];
      for i := 0 to |schedules|
        invariant r == DueRequests(schedules[..i], step, TotalTokens(transmissions), tokenizer)
      {
        assert schedules[..i + 1][..i] == schedules[..i];
        var entry := schedules[i];
        var due := ShouldSend(entry.schedule, step);
        if !due {
          continue;
        }
        var total := TotalTokens(transmissions) + tokenizer([entry.message]);
        r := r + [MakeRequest(entry.message, total)];
      }
      assert schedules[..|schedules|] == schedules;
    }

    /** `add_scheduled_system_messages()`: drop stale copies of the due messages, then append them. */
    method AddScheduledSystemMessages()
      requires Valid()
      modifies this
      ensures Valid() && schedules == old(schedules)
      ensures transmissions == AfterScheduling(old(transmissions), schedules, tokenizer)
    {
      var due := GetScheduledSystemMessages(CurrentStep(transmissions));
      var contents := Contents(due);
      transmissions := RemoveStale(transmissions, contents);
      MessagesDistribute(transmissions, due);
      transmissions := transmissions + due;
    }

    /**
     * `say_and_listen(text)`, with the streamed reply given as its deltas.
     * Returns the messages sent to the service, or the error that stopped the
     * turn before the request.
     */
    method SayAndListen(text: string, deltas: seq<Delta>) returns (r: Result<seq<Message>, Error>)
      requires Valid()
      modifies this
      ensures Valid() && schedules == old(schedules)
      ensures (transmissions, r) == Exchange(old(transmissions), schedules, tokenizer, text, deltas)
    {
      var request := NewMessage("user", text);
      var promptTokens := tokenizer([request]);
      var prompt := MakeRequest(request, TotalTokens(transmissions) + promptTokens);
      ghost var before := transmissions;
      assert prompt == NextRequest(before, tokenizer, "user", text);
      AddScheduledSystemMessages();
      transmissions := transmissions + [prompt];
      ghost var sent := transmissions;
      assert sent == Outgoing(before, schedules, tokenizer, text);
      var payload := GetMessages(MAX_TOKENS);
      assert payload == MessagesWithin(sent, MAX_TOKENS);
      if payload.Err? {
        assert Exchange(before, schedules, tokenizer, text, deltas) == (sent, payload);
        return Err(payload.error);
      }
      var pieces := CollectReply(deltas);
      if pieces == [] {
        assert Exchange(before, schedules, tokenizer, text, deltas) == (sent, payload);
        return Ok(payload.value);
      }
      var response := Reply(prompt, pieces, tokenizer);
      ExchangeEffect(before, schedules, tokenizer, text, deltas);
      transmissions := transmissions + [response];
      assert Exchange(before, schedules, tokenizer, text, deltas) == (sent + [response], payload);
      return Ok(payload.value);
    }
  }
}
