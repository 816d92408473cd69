/**
 * A tunable parameter of a detector and the values it is swept over. Which
 * value generator is used depends on which of `value`, `max_value`,
 * `n_values`, `step_size` and `values` were given; each generator yields a
 * finite sequence, or raises, or (a non-positive step) never stops.
 *
 * Numbers are exact reals. An item may be Python's `None`, because the
 * single-value generator yields `value` even when it was not given, or a
 * string, which only the single-value and list generators pass through:
 * the arithmetic generators raise `TypeError` on it.
 */
module Parameters {
  import opened Common

  /** A parameter value: Python's `None`, a number, or a string. */
  datatype Item = Missing | Num(x: real) | Str(s: string)

  datatype Parameter = Parameter(
    name: string,
    value: Item,
    maxValue: Item,
    nValues: Option<int>,
    stepSize: Option<real>,
    values: Option<seq<Item>>)

  datatype GeneratorKind = NValues | StepSize | NValuesStepSize | ListValues | SingleValue

  datatype ParameterError =
    | TypeError     // arithmetic with a missing value or a string
    | ZeroDivision  // `n_values == 1` makes the spacing divide by zero
    | Unbounded     // a step that never passes `max_value`: the generator never stops

  /** `Parameter._select_generator`: the first matching rule wins. */
  function SelectGenerator(p: Parameter): (g: GeneratorKind)
    ensures g == NValues <==> p.nValues.Some? && p.stepSize.None?
    ensures g == StepSize <==> p.stepSize.Some? && p.nValues.None?
    ensures g == NValuesStepSize <==> p.stepSize.Some? && p.nValues.Some?
    ensures g == ListValues <==> p.nValues.None? && p.stepSize.None? && p.values.Some?
    ensures g == SingleValue <==> p.nValues.None? && p.stepSize.None? && p.values.None?
  {
    if p.nValues.Some? && p.stepSize.None? then NValues
    else if p.stepSize.Some? && p.nValues.None? then StepSize
    else if p.stepSize.Some? && p.nValues.Some? then NValuesStepSize
    else if p.values.Some? then ListValues
    else SingleValue
  }

  /** `value_generator`: the value, then the maximum if there is one. */
  function SingleValues(value: Item, maxValue: Item): (r: seq<Item>)
    ensures |r| == if maxValue.Missing? then 1 else 2
    ensures r[0] == value
    ensures !maxValue.Missing? ==> r[1] == maxValue
  {
    [value] + (if maxValue.Missing? then [] else [maxValue])
  }

  /** `value + i * step` for `i` in `range(n)`; empty for `n <= 0`. */
  function Arithmetic(value: real, step: real, n: int): (r: seq<Item>)
    ensures |r| == if n > 0 then n else 0
    ensures forall i :: 0 <= i < |r| ==> r[i] == Num(value + (i as real) * step)
  {
    if n <= 0 then []
    else
      var r := seq(n, i => Num(value + (i as real) * step));
      assert forall i :: 0 <= i < n ==> r[i] == Num(value + (i as real) * step);
      r
  }

  /**
   * `n_values_generator`: the spacing `(max_value - value) / (n_values - 1)`
   * is computed before anything is yielded.
   */
  function NValuesValues(value: Item, maxValue: Item, n: int): Result<seq<Item>, ParameterError>
  {
    if !value.Num? || !maxValue.Num? then Failure(TypeError)
    else if n - 1 == 0 then Failure(ZeroDivision)
    else Success(Arithmetic(value.x, (maxValue.x - value.x) / ((n - 1) as real), n))
  }

  /**
   * How many times the loop condition `value + i * step <= max_value` holds
   * before it first fails: defined whenever the loop stops.
   */
  function StepCount(value: real, maxValue: real, step: real): nat
    requires step > 0.0 || value > maxValue
  {
    if value > maxValue then 0 else ((maxValue - value) / step).Floor + 1
  }

  /** `step_size_generator`. */
  function StepSizeValues(value: Item, maxValue: Item, step: real): Result<seq<Item>, ParameterError>
  {
    if !value.Num? || !maxValue.Num? then Failure(TypeError)
    else if step <= 0.0 && value.x <= maxValue.x then Failure(Unbounded)
    else Success(Arithmetic(value.x, step, StepCount(value.x, maxValue.x, step)))
  }

  /**
   * `n_values_step_size_generator`: no item is built for `n_values <= 0`,
   * so a missing value only raises when there is something to yield.
   */
  function NValuesStepSizeValues(value: Item, n: int, step: real): Result<seq<Item>, ParameterError>
  {
    if n <= 0 then Success([])
    else if !value.Num? then Failure(TypeError)
    else Success(Arithmetic(value.x, step, n))
  }

  /** `list(parameter)`: everything the selected generator yields. */
  function Values(p: Parameter): Result<seq<Item>, ParameterError>
  {
    match SelectGenerator(p)
    case NValues => NValuesValues(p.value, p.maxValue, p.nValues.value)
    case StepSize => StepSizeValues(p.value, p.maxValue, p.stepSize.value)
    case NValuesStepSize => NValuesStepSizeValues(p.value, p.nValues.value, p.stepSize.value)
    case ListValues => Success(p.values.value)
    case SingleValue => Success(SingleValues(p.value, p.maxValue))
  }

  // ---------------------------------------------------------------------
  // Properties of the generators
  // ---------------------------------------------------------------------

  /** Only `value` (and optionally `max_value`) given: one or two items, in that order. */
  lemma SingleValueShape(p: Parameter)
    requires p.nValues.None? && p.stepSize.None? && p.values.None?
    ensures Values(p) == Success(if p.maxValue.Missing? then [p.value] else [p.value, p.maxValue])
  {
    assert [p.value] + [p.maxValue] == [p.value, p.maxValue];
    assert [p.value] + [] == [p.value];
  }

  /** A list of values is yielded unchanged and in order. */
  lemma ListUnchanged(p: Parameter)
    requires p.nValues.None? && p.stepSize.None? && p.values.Some?
    ensures Values(p) == Success(p.values.value)
  {
  }

  /**
   * With at least two values: exactly `n_values` items, equally spaced,
   * starting at `value` and ending exactly at `max_value`.
   */
  lemma NValuesEquallySpaced(value: real, maxValue: real, n: int)
    requires n >= 2
    ensures var r := NValuesValues(Num(value), Num(maxValue), n);
      && r.Success? && |r.value| == n
      && r.value[0] == Num(value)
      && r.value[n - 1] == Num(maxValue)
      && forall i :: 0 < i < n ==>
           r.value[i].x - r.value[i - 1].x == (maxValue - value) / ((n - 1) as real)
  {
    var step := (maxValue - value) / ((n - 1) as real);
    var r := NValuesValues(Num(value), Num(maxValue), n).value;
    assert r[n - 1] == Num(value + ((n - 1) as real) * step);
    assert ((n - 1) as real) * step == maxValue - value by {
      assert ((n - 1) as real) != 0.0;
    }
    forall i | 0 < i < n
      ensures r[i].x - r[i - 1].x == step
    {
      assert r[i].x == value + (i as real) * step;
      assert r[i - 1].x == value + ((i - 1) as real) * step;
    }
  }

  /** `n_values == 1` divides by zero, and a missing bound raises first. */
  lemma NValuesErrors(value: Item, maxValue: Item, n: int)
    ensures !value.Num? || !maxValue.Num? ==> NValuesValues(value, maxValue, n) == Failure(TypeError)
    ensures value.Num? && maxValue.Num? ==> (NValuesValues(value, maxValue, n) == Failure(ZeroDivision) <==> n == 1)
  {
  }

  /**
   * A string value is yielded as it is by the single-value generator, and
   * makes every arithmetic generator that has an item to build raise.
   */
  lemma StringValues(p: Parameter)
    requires p.value.Str?
    ensures p.nValues.None? && p.stepSize.None? && p.values.None? ==>
      Values(p) == Success(if p.maxValue.Missing? then [p.value] else [p.value, p.maxValue])
    ensures p.nValues.Some? && p.stepSize.None? ==> Values(p) == Failure(TypeError)
    ensures p.stepSize.Some? && p.nValues.None? ==> Values(p) == Failure(TypeError)
    ensures p.stepSize.Some? && p.nValues.Some? ==>
      Values(p) == if p.nValues.value <= 0 then Success([]) else Failure(TypeError)
  {
    if p.nValues.None? && p.stepSize.None? && p.values.None? {
      SingleValueShape(p);
    }
  }

  /** `Parameter("a", value="test value")` yields just that string. */
  lemma SingleStringExample()
    ensures Values(Parameter("a", Str("test value"), Missing, None, None, None)) == Success([Str("test value")])
  {
    SingleValueShape(Parameter("a", Str("test value"), Missing, None, None, None));
  }

  /** Multiplying by a positive number keeps the order. */
  lemma ScaleLe(a: real, b: real, s: real)
    requires s > 0.0 && a <= b
    ensures a * s <= b * s
  {
    assert b * s - a * s == (b - a) * s;
  }

  lemma ScaleLt(a: real, b: real, s: real)
    requires s > 0.0 && a < b
    ensures a * s < b * s
  {
    assert b * s - a * s == (b - a) * s;
  }

  /** The loop condition holds for exactly the first `StepCount` indices. */
  lemma StepCountExact(value: real, maxValue: real, step: real, i: nat)
    requires step > 0.0
    ensures value + (i as real) * step <= maxValue <==> i < StepCount(value, maxValue, step)
  {
    if value <= maxValue {
      var q := (maxValue - value) / step;
      assert q * step == maxValue - value;
      var k := q.Floor;
      assert StepCount(value, maxValue, step) == k + 1;
      assert k as real <= q < k as real + 1.0;
      if i <= k {
        assert (i as real) <= q;
        ScaleLe(i as real, q, step);
      } else {
        assert (i as real) >= k as real + 1.0;
        ScaleLt(q, i as real, step);
      }
    } else {
      ScaleLe(0.0, i as real, step);
    }
  }

  /**
   * With a positive step: every item is at most `max_value`, the items grow
   * by `step` from `value`, and the next one would exceed `max_value`.
   */
  lemma StepSizeMaximal(value: real, maxValue: real, step: real)
    requires step > 0.0
    ensures var r := StepSizeValues(Num(value), Num(maxValue), step);
      && r.Success?
      && (forall i :: 0 <= i < |r.value| ==> r.value[i] == Num(value + (i as real) * step))
      && (forall i :: 0 <= i < |r.value| ==> r.value[i].x <= maxValue)
      && value + (|r.value| as real) * step > maxValue
  {
    var r := StepSizeValues(Num(value), Num(maxValue), step).value;
    forall i | 0 <= i < |r|
      ensures r[i].x <= maxValue
    {
      StepCountExact(value, maxValue, step, i);
    }
    StepCountExact(value, maxValue, step, |r|);
  }

  /** A step that cannot pass `max_value` never stops; one that starts above it yields nothing. */
  lemma StepSizeUnbounded(value: real, maxValue: real, step: real)
    ensures step <= 0.0 && value <= maxValue ==>
      StepSizeValues(Num(value), Num(maxValue), step) == Failure(Unbounded)
    ensures value > maxValue ==> StepSizeValues(Num(value), Num(maxValue), step) == Success([])
  {
  }

  /** `n_values` together with `step_size`: exactly `n_values` items `value + i * step`. */
  lemma NValuesStepSizeShape(value: real, n: nat, step: real)
    ensures var r := NValuesStepSizeValues(Num(value), n, step);
      r.Success? && |r.value| == n
      && forall i :: 0 <= i < n ==> r.value[i] == Num(value + (i as real) * step)
  {
  }

  /**
   * The `while` loop of `step_size_generator`, run to completion: it stops
   * after `StepCount` rounds and collects exactly the spec's items.
   */
  method StepSizeLoop(value: real, maxValue: real, step: real) returns (r: seq<Item>)
    requires step > 0.0 || value > maxValue
    ensures StepSizeValues(Num(value), Num(maxValue), step) == Success(r)
  {
    ghost var n := StepCount(value, maxValue, step);
    var i: nat := 0;
    r := [];
    while value + (i as real) * step <= maxValue
      invariant i <= n
      invariant r == Arithmetic(value, step, i)
      decreases n - i
    {
      if step > 0.0 {
        StepCountExact(value, maxValue, step, i);
      }
      r := r + [Num(value + (i as real) * step)];
      ghost var next := Arithmetic(value, step, i + 1);
      assert |r| == |next| && forall k :: 0 <= k < |r| ==> r[k] == next[k];
      i := i + 1;
    }
    if step > 0.0 {
      StepCountExact(value, maxValue, step, i);
    }
  }

  /** `Parameter("a", value=11, max_value=20, n_values=10)` yields 11, 12, ..., 20. */
  lemma TenValuesExample()
    ensures Values(Parameter("a", Num(11.0), Num(20.0), Some(10), None, None))
         == Success(seq(10, i => Num(11.0 + i as real)))
  {
    assert (20.0 - 11.0) / ((10 - 1) as real) == 1.0;
    assert Arithmetic(11.0, 1.0, 10) == seq(10, i => Num(11.0 + i as real));
  }

  /** `Parameter("a", value=0, max_value=20, step_size=5)` yields 0, 5, 10, 15, 20. */
  lemma StepExample()
    ensures Values(Parameter("a", Num(0.0), Num(20.0), None, Some(5.0), None))
         == Success([Num(0.0), Num(5.0), Num(10.0), Num(15.0), Num(20.0)])
  {
    assert (20.0 - 0.0) / 5.0 == 4.0;
    assert StepCount(0.0, 20.0, 5.0) == 5;
    assert Arithmetic(0.0, 5.0, 5) == [Num(0.0), Num(5.0), Num(10.0), Num(15.0), Num(20.0)];
  }

  /** `Parameter("a", value=10, max_value=12, step_size=5)` yields only 10. */
  lemma ShortStepExample()
    ensures Values(Parameter("a", Num(10.0), Num(12.0), None, Some(5.0), None)) == Success([Num(10.0)])
  {
    assert (12.0 - 10.0) / 5.0 == 0.4;
    assert (0.4).Floor == 0;
    assert StepCount(10.0, 12.0, 5.0) == 1;
    assert Arithmetic(10.0, 5.0, 1) == [Num(10.0)];
  }

  /** `Parameter("a", value=3, step_size=2, n_values=5)` yields 3, 5, 7, 9, 11. */
  lemma StepCountExample()
    ensures Values(Parameter("a", Num(3.0), Missing, Some(5), Some(2.0), None))
         == Success([Num(3.0), Num(5.0), Num(7.0), Num(9.0), Num(11.0)])
  {
    assert Arithmetic(3.0, 2.0, 5) == [Num(3.0), Num(5.0), Num(7.0), Num(9.0), Num(11.0)];
  }
}
