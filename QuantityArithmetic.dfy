/** The `HKQuantity` extension that adds incoming samples onto a running
    total (the watch uses it for distance and energy). All quantities are
    in the one unit the caller passes; the unit itself is not modelled. */
module QuantityArithmetic {
  import opened Wrappers
  import opened HealthKit

  /** `addQuantity(_:unit:)`: `self` plus the given quantity, or `self` when
      there is none. */
  function AddQuantity(self: Quantity, quantity: Option<Quantity>): (r: Quantity)
    ensures quantity.None? ==> r == self
    ensures quantity.Some? ==> r == self + quantity.value
  {
    match quantity
    case None => self
    case Some(q) => self + q
  }

  /** What `addQuantities` returns, as written: each pass of its loop sets the
      accumulator to `self` plus the current element, so only the last
      element survives. */
  function AddedLast(self: Quantity, quantities: Option<seq<Quantity>>): Quantity {
    match quantities
    case None => self
    case Some(qs) => if |qs| == 0 then self else self + qs[|qs| - 1]
  }

  /** The sum of a list of quantities, folded from the front. */
  function Sum(qs: seq<Quantity>): Quantity {
    if |qs| == 0 then 0.0 else Sum(qs[..|qs| - 1]) + qs[|qs| - 1]
  }

  /** `addQuantities(_:unit:)` as written. */
  method AddQuantities(self: Quantity, quantities: Option<seq<Quantity>>) returns (r: Quantity)
    ensures r == AddedLast(self, quantities)
  {
    if quantities.None? {
      return self;
    }
    var qs := quantities.value;
    var accumulated := self;
    for i := 0 to |qs|
      invariant accumulated == if i == 0 then self else self + qs[i - 1]
    {
      accumulated := AddQuantity(self, Some(qs[i]));
    }
    r := accumulated;
  }

  /** `addQuantities` as its accumulator evidently intends: each element is
      added onto the running total. */
  method AddQuantitiesSummed(self: Quantity, quantities: Option<seq<Quantity>>) returns (r: Quantity)
    ensures quantities.None? ==> r == self
    ensures quantities.Some? ==> r == self + Sum(quantities.value)
  {
    if quantities.None? {
      return self;
    }
    var qs := quantities.value;
    var accumulated := self;
    for i := 0 to |qs|
      invariant accumulated == self + Sum(qs[..i])
    {
      assert qs[..i + 1][..i] == qs[..i];
      accumulated := AddQuantity(accumulated, Some(qs[i]));
    }
    assert qs[..|qs|] == qs;
    r := accumulated;
  }

  /** The quantities of a list of samples, in the same order (the `map` in
      `addSamples`). */
  function SampleQuantities(samples: seq<QuantitySample>): (qs: seq<Quantity>)
    ensures |qs| == |samples|
    ensures forall i :: 0 <= i < |samples| ==> qs[i] == samples[i].quantity
  {
    seq(|samples|, i requires 0 <= i < |samples| => samples[i].quantity)
  }

  /** `addSamples(_:unit:)`: `self` for no samples, otherwise `addQuantities`
      over the samples' quantities in order. */
  method AddSamples(self: Quantity, samples: Option<seq<QuantitySample>>) returns (r: Quantity)
    ensures samples.None? ==> r == self
    ensures samples.Some? ==> r == AddedLast(self, Some(SampleQuantities(samples.value)))
  {
    if samples.None? {
      return self;
    }
    r := AddQuantities(self, Some(SampleQuantities(samples.value)));
  }

  /** `addQuantities` returns `self` for no list and for the empty list. */
  lemma AddedLastOfNoneOrEmpty(self: Quantity)
    ensures AddedLast(self, None) == self
    ensures AddedLast(self, Some([])) == self
  {
  }

  /** For a non-empty list `addQuantities` returns `self` plus the last
      element, and replacing any earlier element by any value leaves the
      result unchanged: the earlier elements are lost. */
  lemma AddedLastKeepsOnlyLast(self: Quantity, qs: seq<Quantity>, i: nat, v: Quantity)
    requires i < |qs| - 1
    ensures AddedLast(self, Some(qs)) == self + qs[|qs| - 1]
    ensures AddedLast(self, Some(qs[i := v])) == AddedLast(self, Some(qs))
  {
  }

  /** The loop as written agrees with a true sum exactly when every element
      but the last sums to zero. */
  lemma AddedLastIsSumIff(self: Quantity, qs: seq<Quantity>)
    requires |qs| > 0
    ensures AddedLast(self, Some(qs)) == self + Sum(qs) <==> Sum(qs[..|qs| - 1]) == 0.0
  {
  }

  /** A concrete input where the two disagree: adding [1, 2] onto 0 gives 2
      as written, not 3. */
  lemma AddQuantitiesDropsEarlierElements()
    ensures AddedLast(0.0, Some([1.0, 2.0])) == 2.0
    ensures 0.0 + Sum([1.0, 2.0]) == 3.0
  {
  }
}
