/** The pressure-advance range model: from a start and end value it
    chooses a step from a fixed list of increments so that the range
    spans between 10 and 30 steps, and lists the test values. Arithmetic
    is exact decimal (big.js), modelled with `real`. */
module RangeModel {
  import opened Wrappers
  import opened Numbers
  import opened Decimal

  const MinLines: int := 10
  const MaxLines: int := 30

  /** A candidate step: a positive number. */
  type Step = x: real | x > 0.0 witness 1.0

  /** The candidate steps, largest first; the scan runs from the end of
      this list, so the smallest step that fits wins. */
  const Increments: seq<Step> :=
    [100.0, 50.0, 25.0, 10.0, 5.0, 2.5, 1.0, 0.5, 0.25, 0.1, 0.05, 0.025, 0.01, 0.005, 0.002, 0.001]

  /** The model's state: `#start`, `#end`, `#step` and `#lines`. */
  datatype PAModel = PAModel(start: real, end: real, step: Step, lines: seq<real>)

  /** The state of a freshly constructed model. */
  const Initial: PAModel := PAModel(0.0, 2.0, 0.1, [])

  /** The exception `#validate` throws. */
  datatype RangeError = NotNumbers

  /** `#validate`: both values finite and `start + 0.01 < end`. */
  predicate ValidRange(start: JsNumber, end: JsNumber) {
    start.Num? && end.Num? && start.r + 0.01 < end.r
  }

  /** `range.div(inc).round(0, 3).toNumber()`: the quotient, rounded
      half-up to 20 decimal places by `div`, then rounded away from zero
      to a whole number. */
  function LineCount(range: real, inc: Step): int {
    AwayUnits(DivRound(range / inc))
  }

  /** The step count for `inc` lies within the accepted bounds. */
  predicate Fits(range: real, inc: Step) {
    MinLines <= LineCount(range, inc) <= MaxLines
  }

  /** The outer loop of `#calculateLines` over the indices below `k`,
      from `k - 1` down to 0: the first increment examined that fits. */
  function ScanFrom(range: real, k: nat): (r: Option<nat>)
    requires k <= |Increments|
    ensures r.Some? ==> r.value < k && Fits(range, Increments[r.value])
    ensures r.Some? ==> forall j :: r.value < j < k ==> !Fits(range, Increments[j])
    ensures r.None? ==> forall j :: 0 <= j < k ==> !Fits(range, Increments[j])
  {
    if k == 0 then None
    else if Fits(range, Increments[k - 1]) then Some(k - 1)
    else ScanFrom(range, k - 1)
  }

  /** The index of the chosen increment, if any fits. */
  function ChooseStep(range: real): Option<nat> {
    ScanFrom(range, |Increments|)
  }

  /** `parseFloat(new Big(j).mul(step).add(start).toFixed(3))` for
      `j = 0 .. count`. */
  function TestValues(start: real, step: real, count: nat): seq<real> {
    seq(count + 1, j => TestValue(start, step, j))
  }

  /** Test value `j`: `start + j * step` rounded to three decimals. */
  function TestValue(start: real, step: real, j: int): real {
    Fixed3(start + j as real * step)
  }

  /** `#calculateLines`: start and end are always taken over; step and
      lines only when some increment fits. */
  function CalculateLines(m: PAModel, start: real, end: real): (r: PAModel)
    ensures r.start == start && r.end == end
    ensures ChooseStep(end - start).None? ==> r.step == m.step && r.lines == m.lines
    ensures ChooseStep(end - start).Some? ==> r.step == Increments[ChooseStep(end - start).value]
  {
    match ChooseStep(end - start)
    case None => m.(start := start, end := end)
    case Some(i) =>
      var step := Increments[i];
      var count := LineCount(end - start, step);
      PAModel(start, end, step, TestValues(start, step, count as nat))
  }

  /** `setRange`: throws, leaving the model alone, on an invalid range. */
  function SetRange(m: PAModel, start: JsNumber, end: JsNumber): (r: Result<PAModel, RangeError>)
    ensures r.Failure? <==> !ValidRange(start, end)
    ensures r.Success? ==> r.value.start == start.r && r.value.end == end.r
  {
    if ValidRange(start, end) then Success(CalculateLines(m, start.r, end.r))
    else Failure(NotNumbers)
  }

  predicate StrictlyAscending(s: seq<real>) {
    forall i, j :: 0 <= i < j < |s| ==> s[i] < s[j]
  }

  /** What every reachable state satisfies: the step is a listed
      increment and the lines are empty or an accepted, ascending list. */
  predicate Consistent(m: PAModel) {
    m.step in Increments &&
    (m.lines == [] || (MinLines + 1 <= |m.lines| <= MaxLines + 1 && StrictlyAscending(m.lines)))
  }

  /** Later multiples of a positive step lie at least one step further. */
  lemma GapScaled(i: int, j: int, step: real)
    requires i < j && step > 0.0
    ensures (j as real) * step >= (i as real) * step + step
  {
    var d := j as real - i as real;
    assert d >= 1.0;
    assert d * step >= step;
    assert (j as real) * step == (i as real) * step + d * step;
  }

  /** Test values are strictly ascending: a step of at least 0.001 moves
      each value at least one unit of the third decimal. */
  lemma {:induction false} TestValuesAscending(start: real, step: real, count: nat)
    requires step >= 0.001
    ensures StrictlyAscending(TestValues(start, step, count))
  {
    var values := TestValues(start, step, count);
    forall i, j | 0 <= i < j < |values|
      ensures values[i] < values[j]
    {
      TestValueOrder(start, step, i, j);
    }
  }

  lemma TestValueOrder(start: real, step: real, i: int, j: int)
    requires step >= 0.001 && i < j
    ensures TestValue(start, step, i) < TestValue(start, step, j)
  {
    var x := start + i as real * step;
    var y := start + j as real * step;
    GapScaled(i, j, step);
    Fixed3Separates(x, y);
  }

  /** After a successful `setRange` that found a step, there are
      `lineCount + 1` ascending values, value j being `start + j * step`
      rounded to three decimals. */
  lemma {:induction false} SetRangeLines(m: PAModel, start: JsNumber, end: JsNumber)
    requires ValidRange(start, end) && ChooseStep(end.r - start.r).Some?
    ensures var r := SetRange(m, start, end).value;
      var n := LineCount(end.r - start.r, r.step);
      MinLines <= n <= MaxLines &&
      |r.lines| == n + 1 &&
      (forall j :: 0 <= j < |r.lines| ==> r.lines[j] == TestValue(start.r, r.step, j)) &&
      StrictlyAscending(r.lines)
  {
    var i := ChooseStep(end.r - start.r).value;
    var step := Increments[i];
    IncrementsAtLeast(i);
    TestValuesAscending(start.r, step, LineCount(end.r - start.r, step) as nat);
  }

  lemma IncrementsAtLeast(i: nat)
    requires i < |Increments|
    ensures Increments[i] >= 0.001
  {
  }

  lemma IncrementsDecreasing(i: nat, j: nat)
    requires i <= j < |Increments|
    ensures Increments[j] <= Increments[i]
  {
  }

  /** The chosen step is the smallest listed increment whose step count
      fits; no increment fits when none is chosen. */
  lemma ChosenStepIsSmallestFitting(range: real)
    ensures ChooseStep(range).Some? ==>
      var i := ChooseStep(range).value;
      Fits(range, Increments[i]) &&
      forall j :: 0 <= j < |Increments| && Increments[j] < Increments[i] ==> !Fits(range, Increments[j])
    ensures ChooseStep(range).None? ==> forall j :: 0 <= j < |Increments| ==> !Fits(range, Increments[j])
  {
    if ChooseStep(range).Some? {
      var i := ChooseStep(range).value;
      forall j | 0 <= j < |Increments| && Increments[j] < Increments[i]
        ensures i < j
      {
        if j <= i {
          IncrementsDecreasing(j, i);
        }
      }
    }
  }

  /** A freshly constructed model is consistent. */
  lemma InitialConsistent()
    ensures Consistent(Initial)
  {
    assert Increments[9] == 0.1;
  }

  /** `setRange` keeps the model consistent. */
  lemma {:induction false} SetRangeConsistent(m: PAModel, start: JsNumber, end: JsNumber)
    requires Consistent(m) && SetRange(m, start, end).Success?
    ensures Consistent(SetRange(m, start, end).value)
  {
    if ChooseStep(end.r - start.r).Some? {
      SetRangeLines(m, start, end);
    }
  }

  /** When no increment fits, start and end move but step and lines keep
      the values of the previous range. */
  lemma StaleWhenNothingFits(m: PAModel, start: JsNumber, end: JsNumber)
    requires ValidRange(start, end) && ChooseStep(end.r - start.r).None?
    ensures SetRange(m, start, end) == Success(m.(start := start.r, end := end.r))
  {
  }

  /** Dividing at least 3100 by at most 100 gives at least 31. */
  lemma QuotientAtLeast(range: real, inc: real)
    requires 0.0 < inc <= 100.0 && range >= 3100.0
    ensures range / inc >= 31.0
  {
    var q := range / inc;
    assert q * inc == range;
  }

  lemma WideRangeCountAbove(range: real, inc: Step)
    requires inc <= 100.0 && range >= 3100.0
    ensures LineCount(range, inc) > MaxLines
  {
    QuotientAtLeast(range, inc);
  }

  /** A range of 3100 or more fits no increment: every step count exceeds
      30. */
  lemma WideRangeFitsNothing(range: real)
    requires range >= 3100.0
    ensures ChooseStep(range).None?
  {
    forall j | 0 <= j < |Increments|
      ensures !Fits(range, Increments[j])
    {
      IncrementsDecreasing(0, j);
      WideRangeCountAbove(range, Increments[j]);
    }
  }

  /** The arithmetic behind `LineCountIsCeiling`, for any quotient. */
  lemma CeilingOfQuotient(range: real, step: real, q: real, n: int)
    requires step > 0.0 && q * step == range && q <= n as real < q + 1.0
    ensures n as real * step >= range
    ensures (n - 1) as real * step < range
  {
    assert (n as real - q) * step >= 0.0;
    assert (q - (n - 1) as real) * step > 0.0;
  }

  /** When the quotient range/step has at most 20 decimals, the line
      count is its ceiling: the last unrounded value reaches `end` and the
      one before it stays below. */
  lemma LineCountIsCeiling(start: real, end: real, step: Step)
    requires start < end && OnDivGrid((end - start) / step)
    ensures start + LineCount(end - start, step) as real * step >= end
    ensures start + (LineCount(end - start, step) - 1) as real * step < end
  {
    var q := (end - start) / step;
    assert q * step == end - start;
    DivRoundOnGrid(q);
    QuotientPositive(end - start, step);
    CeilingOfQuotient(end - start, step, q, LineCount(end - start, step));
  }

  lemma QuotientPositive(a: real, b: real)
    requires a > 0.0 && b > 0.0
    ensures a / b > 0.0
  {
  }

  /** Without that proviso the count can fall short: for start = -10^-30
      and end = 0.02 the quotient 20 + 10^-27 is rounded to 20 by `div`,
      and 20 steps of 0.001 end just below `end`. */
  lemma CeilingFailsPastTwentyDecimals()
    ensures var start := -0.000000000000000000000000000001;
      var end := 0.02;
      ChooseStep(end - start) == Some(15) &&
      LineCount(end - start, 0.001) == 20 &&
      start + 20.0 * 0.001 < end
  {
    var start := -0.000000000000000000000000000001;
    var end := 0.02;
    var q := (end - start) / 0.001;
    assert q == 20.000000000000000000000000001;
    assert HalfUpUnits(q * 100000000000000000000.0) == 2000000000000000000000;
    assert DivRound(q) == 20.0;
    assert LineCount(end - start, 0.001) == 20;
    assert Increments[15] == 0.001;
  }
}
