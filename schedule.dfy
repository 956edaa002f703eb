/**
 * Schedules for recurring system messages: a pattern of non-negative, strictly
 * ascending ints mixed with Ellipsis markers, plus a start step. An Ellipsis
 * continues the arithmetic series fixed by the two ints before it, up to the
 * next int (or forever when it ends the pattern).
 */
module Schedules {
  import opened Wrappers
  import opened Errors

  /** A pattern element as the constructor receives it: an int, the `Ellipsis` object, or any other Python value. */
  datatype PyValue = PyInt(i: int) | PyEllipsis | PyOther

  /** A validated pattern element. */
  datatype Item = Literal(value: int) | Series

  datatype Schedule = Schedule(pattern: seq<Item>, start: int)

  /**
   * The pattern invariant the constructor establishes: ints are non-negative and
   * strictly ascending, and every Ellipsis comes right after two ints.
   */
  predicate ValidPattern(p: seq<Item>) {
    && (forall i :: 0 <= i < |p| && p[i].Literal? ==> p[i].value >= 0)
    && (forall i, j :: 0 <= i < j < |p| && p[i].Literal? && p[j].Literal? ==> p[i].value < p[j].value)
    && (forall i :: 0 <= i < |p| && p[i].Series? ==> i >= 2 && p[i - 1].Literal? && p[i - 2].Literal?)
  }

  // ---------------------------------------------------------------------------
  // Construction: Schedule.__post_init__ / _validate_pattern
  // ---------------------------------------------------------------------------

  /** The value of `previous_int` when element `i` is examined: the last int before it, or -1. */
  function LastIntBefore(raw: seq<PyValue>, i: nat): (r: int)
    requires i <= |raw|
    ensures r == -1 || exists m :: 0 <= m < i && raw[m] == PyInt(r)
  {
    if i == 0 then -1 else if raw[i - 1].PyInt? then raw[i - 1].i else LastIntBefore(raw, i - 1)
  }

  /** The error element `i` raises, given that every earlier element passed. */
  function CheckAt(raw: seq<PyValue>, i: nat): Option<ValidationError>
    requires i < |raw|
  {
    match raw[i]
    case PyEllipsis =>
      if i >= 2 && raw[i - 1].PyInt? && raw[i - 2].PyInt? then None else Some(EllipsisNotPreceded)
    case PyOther => Some(NotIntOrEllipsis)
    case PyInt(n) => if n <= LastIntBefore(raw, i) then Some(NotAscending) else None
  }

  /** The error of the first element from `from` on that fails its check. */
  function FirstViolation(raw: seq<PyValue>, from: nat): (r: Option<ValidationError>)
    requires from <= |raw|
    decreases |raw| - from
    ensures r.None? <==> forall j :: from <= j < |raw| ==> CheckAt(raw, j).None?
  {
    if from == |raw| then None
    else if CheckAt(raw, from).Some? then CheckAt(raw, from)
    else FirstViolation(raw, from + 1)
  }

  function ToItem(v: PyValue): Item
    requires !v.PyOther?
  {
    if v.PyInt? then Literal(v.i) else Series
  }

  function FromItem(x: Item): PyValue {
    match x
    case Literal(n) => PyInt(n)
    case Series => PyEllipsis
  }

  /** The Python list a validated pattern stands for. */
  function Raw(p: seq<Item>): (raw: seq<PyValue>)
    ensures |raw| == |p|
  {
    seq(|p|, j requires 0 <= j < |p| => FromItem(p[j]))
  }

  /** What the constructor makes of a pattern: `[0]` for an empty one, the first check's error, or the pattern itself. */
  function Validated(raw: seq<PyValue>): Result<seq<Item>, ValidationError> {
    if raw == [] then Ok([Literal(0)])
    else match FirstViolation(raw, 0)
      case Some(e) => Err(e)
      case None =>
        Ok(seq(|raw|, j requires 0 <= j < |raw| => assert CheckAt(raw, j).None?; ToItem(raw[j])))
  }

  lemma {:induction false} FirstViolationIsFirst(raw: seq<PyValue>, from: nat, j: nat)
    requires from <= j < |raw|
    requires forall k :: from <= k < j ==> CheckAt(raw, k).None?
    requires CheckAt(raw, j).Some?
    ensures FirstViolation(raw, from) == CheckAt(raw, j)
    decreases j - from
  {
    if from < j {
      assert CheckAt(raw, from).None?;
      FirstViolationIsFirst(raw, from + 1, j);
    }
  }

  /** While every check passes, `previous_int` is at least every int seen so far, and never below -1. */
  lemma {:induction false} IntsBelowLast(raw: seq<PyValue>, j: nat)
    requires j <= |raw|
    requires forall k :: 0 <= k < j ==> CheckAt(raw, k).None?
    ensures LastIntBefore(raw, j) >= -1
    ensures forall i :: 0 <= i < j && raw[i].PyInt? ==> raw[i].i <= LastIntBefore(raw, j)
  {
    if j > 0 {
      assert CheckAt(raw, j - 1).None?;
      IntsBelowLast(raw, j - 1);
    }
  }

  /**
   * Validation accepts exactly the valid patterns: what it returns is valid and
   * non-empty, and for a non-empty input it is that input, element by element.
   */
  lemma ValidatedIsValid(raw: seq<PyValue>)
    ensures Validated(raw).Ok? ==> ValidPattern(Validated(raw).value) && Validated(raw).value != []
    ensures Validated(raw).Ok? && raw != [] ==> Raw(Validated(raw).value) == raw
  {
    if raw != [] && Validated(raw).Ok? {
      var p := Validated(raw).value;
      assert forall j :: 0 <= j < |raw| ==> CheckAt(raw, j).None?;
      forall i | 0 <= i < |p| && p[i].Literal?
        ensures p[i].value >= 0
      {
        assert CheckAt(raw, i).None?;
        IntsBelowLast(raw, i);
      }
      forall i, j | 0 <= i < j < |p| && p[i].Literal? && p[j].Literal?
        ensures p[i].value < p[j].value
      {
        assert CheckAt(raw, j).None?;
        IntsBelowLast(raw, j);
      }
      forall i | 0 <= i < |p| && p[i].Series?
        ensures i >= 2 && p[i - 1].Literal? && p[i - 2].Literal?
      {
        assert CheckAt(raw, i).None?;
      }
      forall j | 0 <= j < |raw|
        ensures Raw(p)[j] == raw[j]
      {
        assert CheckAt(raw, j).None?;
      }
    }
  }

  /** Every valid, non-empty pattern passes validation unchanged: validation and `Raw` are inverse. */
  lemma ValidPatternAccepted(p: seq<Item>)
    requires ValidPattern(p) && p != []
    ensures Validated(Raw(p)) == Ok(p)
  {
    var raw := Raw(p);
    forall j | 0 <= j < |raw|
      ensures CheckAt(raw, j).None?
    {
      if p[j].Literal? {
        var last := LastIntBefore(raw, j);
        if last != -1 {
          var m :| 0 <= m < j && raw[m] == PyInt(last);
          assert p[m].Literal?;
        }
      }
    }
    var q := Validated(raw).value;
    assert q == p;
  }

  /** The constructor: validates `pattern` as `_validate_pattern` does, element by element. */
  method NewSchedule(pattern: seq<PyValue>, start: int) returns (r: Result<Schedule, ValidationError>)
    ensures r.Ok? <==> Validated(pattern).Ok?
    ensures r.Ok? ==> r.value == Schedule(Validated(pattern).value, start)
    ensures r.Err? ==> r.error == Validated(pattern).error
  {
    if pattern == [] {
      return Ok(Schedule([Literal(0)], start));
    }
    var previousInt := -1;
    for i := 0 to |pattern|
      invariant previousInt == LastIntBefore(pattern, i)
      invariant forall j :: 0 <= j < i ==> CheckAt(pattern, j).None?
    {
      var item := if i >= 1 then pattern[i - 1] else PyEllipsis;
      var prev := if i >= 2 then pattern[i - 2] else PyEllipsis;
      match pattern[i]
      case PyEllipsis =>
        if !item.PyInt? || !prev.PyInt? {
          FirstViolationIsFirst(pattern, 0, i);
          return Err(EllipsisNotPreceded);
        }
      case PyOther =>
        FirstViolationIsFirst(pattern, 0, i);
        return Err(NotIntOrEllipsis);
      case PyInt(n) =>
        if n <= previousInt {
          FirstViolationIsFirst(pattern, 0, i);
          return Err(NotAscending);
        }
        previousInt := n;
    }
    var items := seq(|pattern|, j requires 0 <= j < |pattern| => assert CheckAt(pattern, j).None?; ToItem(pattern[j]));
    assert Validated(pattern) == Ok(items);
    r := Ok(Schedule(items, start));
  }

  /** The test suite's malformed patterns, each rejected with its own message; the empty one becomes `[0]`. */
  lemma ValidationExamples()
    ensures Validated([]) == Ok([Literal(0)])
    ensures Validated([PyEllipsis]) == Err(EllipsisNotPreceded)
    ensures Validated([PyInt(42), PyEllipsis]) == Err(EllipsisNotPreceded)
    ensures Validated([PyInt(1), PyInt(2), PyEllipsis, PyEllipsis]) == Err(EllipsisNotPreceded)
    ensures Validated([PyInt(1), PyInt(2), PyEllipsis, PyInt(3), PyEllipsis]) == Err(EllipsisNotPreceded)
    ensures Validated([PyInt(-1)]) == Err(NotAscending)
    ensures Validated([PyInt(42), PyInt(1)]) == Err(NotAscending)
    ensures Validated([PyInt(1), PyInt(2), PyInt(3), PyEllipsis, PyInt(8), PyInt(7), PyInt(9), PyEllipsis, PyInt(11)])
      == Err(NotAscending)
    ensures Validated([PyInt(1), PyInt(2), PyOther, PyInt(3)]) == Err(NotIntOrEllipsis)
  {
  }

  // ---------------------------------------------------------------------------
  // Evaluation: Schedule.should_send
  // ---------------------------------------------------------------------------

  /**
   * Element `j` is an Ellipsis after the ints `a, b` (difference `d = b - a`),
   * and `k` is one of the terms `b + d, b + 2d, ...` that lie below the int
   * closing the series, if there is one.
   */
  predicate InSeries(p: seq<Item>, j: int, k: int)
    requires 0 <= j < |p|
  {
    && p[j].Series? && j >= 2 && p[j - 1].Literal? && p[j - 2].Literal?
    && var b := p[j - 1].value;
       var d := b - p[j - 2].value;
       && d > 0 && k >= b + d && (k - (b + d)) % d == 0
       && (j + 1 < |p| && p[j + 1].Literal? ==> k < p[j + 1].value)
  }

  /** A reduced step matches when it is one of the ints or a term of one of the series. */
  predicate MatchesPattern(p: seq<Item>, k: int) {
    || (exists i :: 0 <= i < |p| && p[i] == Literal(k))
    || (exists j :: 0 <= j < |p| && InSeries(p, j, k))
  }

  /** No step before `start` matches; from there on the step is reduced by `start`. */
  predicate Matches(s: Schedule, step: int) {
    step >= s.start && MatchesPattern(s.pattern, step - s.start)
  }

  /** No element before `i` matches `k`: every int there is below it, and no series there contains it. */
  predicate NoMatchBefore(p: seq<Item>, i: int, k: int)
    requires 0 <= i <= |p|
  {
    && (forall j :: 0 <= j < i && p[j].Literal? ==> p[j].value < k)
    && (forall j :: 0 <= j < i ==> !InSeries(p, j, k))
  }

  /**
   * What the loop of `should_send` knows when it reaches element `i`:
   * `cd` is the difference of two adjacent ints, and at an Ellipsis `offset` is
   * its series' first new term.
   */
  predicate Accumulators(p: seq<Item>, i: int, offset: int, cd: int)
    requires 0 <= i <= |p|
  {
    && (1 <= i < |p| && p[i - 1].Literal? && p[i].Literal? ==> cd == p[i].value - p[i - 1].value)
    && (2 <= i < |p| && p[i].Series? && p[i - 1].Literal? && p[i - 2].Literal? ==>
          cd == p[i - 1].value - p[i - 2].value && offset == p[i - 1].value + cd)
  }

  /** In a valid pattern, nothing from an int above `k` onwards can match `k`. */
  lemma NothingMatchesBeyond(p: seq<Item>, i: int, k: int)
    requires ValidPattern(p) && 0 <= i < |p| && p[i].Literal? && k < p[i].value
    ensures forall j :: i <= j < |p| ==> p[j] != Literal(k) && !InSeries(p, j, k)
  {
    forall j | i <= j < |p|
      ensures p[j] != Literal(k) && !InSeries(p, j, k)
    {
      if p[j].Series? {
        assert p[j - 1].Literal?;
        assert p[j - 1].value >= p[i].value;
      }
    }
  }

  /** Once an int at least `k` is reached with nothing matched before, that int alone decides. */
  lemma LiteralDecides(p: seq<Item>, i: int, k: int)
    requires ValidPattern(p) && 0 <= i < |p| && p[i].Literal? && k <= p[i].value
    requires NoMatchBefore(p, i, k)
    ensures MatchesPattern(p, k) <==> p[i].value == k
  {
    if p[i].value == k {
      assert p[i] == Literal(k);
    } else {
      NothingMatchesBeyond(p, i, k);
    }
  }

  /**
   * At an Ellipsis whose series could contain `k` (`k` is at least its first
   * new term and below its closing int), the series alone decides.
   */
  lemma SeriesDecides(p: seq<Item>, i: int, k: int, offset: int, cd: int)
    requires ValidPattern(p) && 0 <= i < |p| && p[i].Series?
    requires NoMatchBefore(p, i, k) && Accumulators(p, i, offset, cd)
    requires k >= offset && (i + 1 < |p| && p[i + 1].Literal? ==> k < p[i + 1].value)
    ensures cd > 0
    ensures MatchesPattern(p, k) <==> (k - offset) % cd == 0
  {
    assert i >= 2 && p[i - 1].Literal? && p[i - 2].Literal?;
    assert InSeries(p, i, k) <==> (k - offset) % cd == 0;
    if i + 1 < |p| {
      assert p[i + 1].Literal?;
      NothingMatchesBeyond(p, i + 1, k);
    }
  }

  /** An Ellipsis that ends the pattern cannot contain a step below its first new term. */
  lemma BelowOpenSeries(p: seq<Item>, i: int, k: int, offset: int, cd: int)
    requires ValidPattern(p) && 0 <= i < |p| && p[i].Series?
    requires NoMatchBefore(p, i, k) && Accumulators(p, i, offset, cd)
    requires k < offset && !(i + 1 < |p| && p[i + 1].Literal?)
    ensures !MatchesPattern(p, k)
  {
    if i + 1 < |p| {
      assert false;
    }
  }

  /** A step passed over by an element is not matched by it. */
  lemma PassOver(p: seq<Item>, i: int, k: int)
    requires 0 <= i < |p| && NoMatchBefore(p, i, k)
    requires p[i].Literal? ==> p[i].value < k
    requires !InSeries(p, i, k)
    ensures NoMatchBefore(p, i + 1, k)
  {
  }

  /**
   * `should_send`, with the series check corrected: a step below a series'
   * first new term is handed on to the int that closes the series instead of
   * being rejected. Returns exactly whether the schedule matches the step.
   */
  method ShouldSend(s: Schedule, step: int) returns (r: bool)
    requires ValidPattern(s.pattern)
    ensures r == Matches(s, step)
    ensures step < s.start ==> !r
  {
    if step < s.start {
      return false;
    }
    var k := step - s.start;
    var p := s.pattern;
    var seriesOffset := 0;
    var commonDifference := 0;
    for i := 0 to |p|
      invariant NoMatchBefore(p, i, k)
      invariant Accumulators(p, i, seriesOffset, commonDifference)
    {
      var nextIsInt := i + 1 < |p| && p[i + 1].Literal?;
      match p[i]
      case Literal(current) =>
        if nextIsInt {
          // an arithmetic series may follow: remember the difference
          commonDifference := p[i + 1].value - current;
        } else if i + 1 < |p| {
          // an arithmetic series begins: remember its first new term
          seriesOffset := current + commonDifference;
        }
        if k > current {
          PassOver(p, i, k);
          continue;
        }
        LiteralDecides(p, i, k);
        return current == k;
      case Series =>
        if k < seriesOffset || (nextIsInt && k >= p[i + 1].value) {
          if nextIsInt {
            // the int closing the series, and what follows it, decide
            PassOver(p, i, k);
            continue;
          }
          BelowOpenSeries(p, i, k, seriesOffset, commonDifference);
          return false;
        }
        SeriesDecides(p, i, k, seriesOffset, commonDifference);
        return (k - seriesOffset) % commonDifference == 0;
    }
    return false;
  }

  // ---------------------------------------------------------------------------
  // should_send as written
  // ---------------------------------------------------------------------------

  /**
   * The loop of `should_send` exactly as the source writes it, from element `i`
   * on, with the accumulators `offset` (series_offset) and `cd`
   * (common_difference). At an Ellipsis it returns False as soon as the step is
   * below the series' first new term, before looking at the closing int.
   */
  function ScanAsWritten(p: seq<Item>, k: int, i: nat, offset: int, cd: int): bool
    requires ValidPattern(p) && i <= |p|
    requires Accumulators(p, i, offset, cd)
    decreases |p| - i
  {
    if i == |p| then false
    else
      var nextIsInt := i + 1 < |p| && p[i + 1].Literal?;
      match p[i]
      case Literal(current) =>
        var cd' := if nextIsInt then p[i + 1].value - current else cd;
        var offset' := if !nextIsInt && i + 1 < |p| then current + cd else offset;
        if k > current then ScanAsWritten(p, k, i + 1, offset', cd') else current == k
      case Series =>
        if k < offset then false
        else if nextIsInt && k >= p[i + 1].value then ScanAsWritten(p, k, i + 1, offset, cd)
        else (k - offset) % cd == 0
  }

  function ShouldSendAsWritten(s: Schedule, step: int): bool
    requires ValidPattern(s.pattern)
  {
    step >= s.start && ScanAsWritten(s.pattern, step - s.start, 0, 0, 0)
  }

  /** The source's loop never reports a step that the schedule does not contain. */
  lemma {:induction false} ScanAsWrittenSound(p: seq<Item>, k: int, i: nat, offset: int, cd: int)
    requires ValidPattern(p) && i <= |p|
    requires Accumulators(p, i, offset, cd)
    ensures ScanAsWritten(p, k, i, offset, cd) ==> MatchesPattern(p, k)
    decreases |p| - i
  {
    if i < |p| && ScanAsWritten(p, k, i, offset, cd) {
      var nextIsInt := i + 1 < |p| && p[i + 1].Literal?;
      match p[i]
      case Literal(current) =>
        var cd' := if nextIsInt then p[i + 1].value - current else cd;
        var offset' := if !nextIsInt && i + 1 < |p| then current + cd else offset;
        if k > current {
          ScanAsWrittenSound(p, k, i + 1, offset', cd');
        } else {
          assert p[i] == Literal(k);
        }
      case Series =>
        if nextIsInt && k >= p[i + 1].value {
          ScanAsWrittenSound(p, k, i + 1, offset, cd);
        } else {
          assert InSeries(p, i, k);
        }
    }
  }

  lemma AsWrittenSound(s: Schedule, step: int)
    requires ValidPattern(s.pattern)
    ensures ShouldSendAsWritten(s, step) ==> Matches(s, step)
  {
    ScanAsWrittenSound(s.pattern, step - s.start, 0, 0, 0);
  }

  /**
   * The source's loop misses a closing int that lies below the series' first
   * new term: `[0, 5, ..., 7]` lists 7, yet step 7 is not reported.
   */
  lemma AsWrittenMissesClosingInt()
    ensures ValidPattern([Literal(0), Literal(5), Series, Literal(7)])
    ensures Matches(Schedule([Literal(0), Literal(5), Series, Literal(7)], 0), 7)
    ensures !ShouldSendAsWritten(Schedule([Literal(0), Literal(5), Series, Literal(7)], 0), 7)
  {
    var p := [Literal(0), Literal(5), Series, Literal(7)];
    assert p[3] == Literal(7);
  }

  /**
   * The miss is not limited to the closing int: any later element that lists a
   * step below the series' first new term is never reached. `[0, 10, ..., 12, 15]`
   * lists 15, yet step 15 is not reported.
   */
  lemma AsWrittenMissesLaterInt()
    ensures ValidPattern([Literal(0), Literal(10), Series, Literal(12), Literal(15)])
    ensures Matches(Schedule([Literal(0), Literal(10), Series, Literal(12), Literal(15)], 0), 15)
    ensures !ShouldSendAsWritten(Schedule([Literal(0), Literal(10), Series, Literal(12), Literal(15)], 0), 15)
  {
    var p := [Literal(0), Literal(10), Series, Literal(12), Literal(15)];
    assert p[4] == Literal(15);
  }

  /** Likewise for a later series: `[0, 10, ..., 11, 12, ...]` contains 13, yet step 13 is not reported. */
  lemma AsWrittenMissesLaterSeries()
    ensures ValidPattern([Literal(0), Literal(10), Series, Literal(11), Literal(12), Series])
    ensures Matches(Schedule([Literal(0), Literal(10), Series, Literal(11), Literal(12), Series], 0), 13)
    ensures !ShouldSendAsWritten(Schedule([Literal(0), Literal(10), Series, Literal(11), Literal(12), Series], 0), 13)
  {
    var p := [Literal(0), Literal(10), Series, Literal(11), Literal(12), Series];
    assert InSeries(p, 5, 13);
  }

  // ---------------------------------------------------------------------------
  // The test suite's schedules, over the steps 0 to 19
  // ---------------------------------------------------------------------------

  /** `[0, 2, ...]` from step 5: every second step from 5 on. */
  lemma OpenSeriesExample(step: int)
    ensures Matches(Schedule([Literal(0), Literal(2), Series], 5), step) <==> step >= 5 && (step - 5) % 2 == 0
  {
    var p := [Literal(0), Literal(2), Series];
    var k := step - 5;
    if step >= 5 && k % 2 == 0 {
      if k == 0 { assert p[0] == Literal(k); }
      else if k == 2 { assert p[1] == Literal(k); }
      else { assert InSeries(p, 2, k); }
    }
  }

  /** `[1, 2, 4, ..., 8]` from step 1: the ints, and the series 6 closed by 8. */
  lemma ClosedSeriesExample(step: int)
    ensures Matches(Schedule([Literal(1), Literal(2), Literal(4), Series, Literal(8)], 1), step)
      <==> step in {2, 3, 5, 7, 9}
  {
    var p := [Literal(1), Literal(2), Literal(4), Series, Literal(8)];
    var k := step - 1;
    if k == 1 { assert p[0] == Literal(k); }
    else if k == 2 { assert p[1] == Literal(k); }
    else if k == 4 { assert p[2] == Literal(k); }
    else if k == 6 { assert InSeries(p, 3, k); }
    else if k == 8 { assert p[4] == Literal(k); }
  }

  /** `[1, 3, ..., 9, 12, ...]` from step 4: odd reduced steps up to 9, then every third from 12 on. */
  lemma TwoSeriesExample(step: int)
    ensures Matches(Schedule([Literal(1), Literal(3), Series, Literal(9), Literal(12), Series], 4), step)
      <==> step >= 4 && var k := step - 4; (1 <= k <= 9 && k % 2 == 1) || (k >= 12 && k % 3 == 0)
  {
    var p := [Literal(1), Literal(3), Series, Literal(9), Literal(12), Series];
    var k := step - 4;
    if k == 1 { assert p[0] == Literal(k); }
    else if k == 3 { assert p[1] == Literal(k); }
    else if 5 <= k < 9 && k % 2 == 1 { assert InSeries(p, 2, k); }
    else if k == 9 { assert p[3] == Literal(k); }
    else if k == 12 { assert p[4] == Literal(k); }
    else if k > 12 && k % 3 == 0 { assert InSeries(p, 5, k); }
  }

  /** The single-int patterns and `[0, 2]`: exactly the listed steps. */
  lemma LiteralExamples(step: int)
    ensures Matches(Schedule([Literal(0)], 0), step) <==> step == 0
    ensures Matches(Schedule([Literal(1)], 0), step) <==> step == 1
    ensures Matches(Schedule([Literal(0), Literal(2)], 0), step) <==> step == 0 || step == 2
  {
    var p := [Literal(0), Literal(2)];
    if step == 0 { assert p[0] == Literal(step); assert [Literal(0)][0] == Literal(step); }
    if step == 2 { assert p[1] == Literal(step); }
    if step == 1 { assert [Literal(1)][0] == Literal(step); }
  }
}
