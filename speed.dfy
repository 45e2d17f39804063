/**
 * SpeedMetrics.cs: the throughput figures shared by the insert, select,
 * update and delete measurements.  Durations are TimeSpan ticks (100 ns);
 * the source's `decimal` arithmetic is modelled by exact rationals, and the
 * `(long)` cast of a positive value by `Floor`.
 */
module Speed {

  /** `TimeSpan.TicksPerSecond`. */
  const TicksPerSecond: int := 10_000_000
  /** The item count the normalised duration refers to. */
  const MillionItems: int := 1_000_000

  /** `RatePerSecond` (items per second) and `MillionItemsDuration` in ticks. */
  datatype SpeedMetrics = SpeedMetrics(ratePerSecond: real, millionItemsDuration: int)

  /** The guard of the constructor: a positive duration and a positive item count. */
  predicate Measurable(durationTicks: int, items: int) {
    durationTicks > 0 && items > 0
  }

  /** The ticks one item took, in exact arithmetic (`ticks / items` in `decimal`). */
  function TicksPerItem(durationTicks: int, items: int): (t: real)
    requires Measurable(durationTicks, items)
    ensures t > 0.0
  {
    durationTicks as real / items as real
  }

  /** The `SpeedMetrics` constructor: both figures stay zero outside the guard. */
  function Compute(durationTicks: int, items: int): (s: SpeedMetrics)
    ensures !Measurable(durationTicks, items) ==> s.ratePerSecond == 0.0 && s.millionItemsDuration == 0
    ensures Measurable(durationTicks, items) ==>
      s.ratePerSecond == (items * TicksPerSecond) as real / durationTicks as real
    ensures Measurable(durationTicks, items) ==> s.ratePerSecond > 0.0
    ensures Measurable(durationTicks, items) ==>
      s.ratePerSecond * TicksPerItem(durationTicks, items) == TicksPerSecond as real
    ensures Measurable(durationTicks, items) ==>
      s.millionItemsDuration == durationTicks * MillionItems / items
    ensures s.millionItemsDuration >= 0
  {
    if durationTicks > 0 && items > 0 then
      var ticksPerItem := TicksPerItem(durationTicks, items);
      var rate := TicksPerSecond as real / ticksPerItem;
      var millionItemsTicks := (ticksPerItem * MillionItems as real).Floor;
      RateIsItemsPerSecond(durationTicks, items);
      FloorIsIntegerDivision(durationTicks * MillionItems, items);
      assert ticksPerItem * MillionItems as real == (durationTicks * MillionItems) as real / items as real;
      SpeedMetrics(rate, millionItemsTicks)
    else
      SpeedMetrics(0.0, 0)
  }

  lemma RateIsItemsPerSecond(durationTicks: int, items: int)
    requires Measurable(durationTicks, items)
    ensures TicksPerSecond as real / TicksPerItem(durationTicks, items)
         == (items * TicksPerSecond) as real / durationTicks as real
    ensures (TicksPerSecond as real / TicksPerItem(durationTicks, items)) * TicksPerItem(durationTicks, items)
         == TicksPerSecond as real
  {
  }

  /** For a non-negative numerator, the floor of the exact quotient is integer division. */
  lemma FloorIsIntegerDivision(n: int, d: int)
    requires n >= 0 && d > 0
    ensures (n as real / d as real).Floor == n / d
  {
    var q, r := n / d, n % d;
    assert n == q * d + r && 0 <= r < d;
    assert n as real / d as real == q as real + r as real / d as real;
    assert 0.0 <= r as real / d as real < 1.0;
  }
}
