/** The validation pass run on submission. One left-to-right pass annotates each
    target from its own numbers and the raw profit of the target before it, and
    sums the profit and amount percentages; two aggregate passes then annotate every
    target when a sum is over its cap. Annotations are merged into the ones already
    present; nothing is ever removed, and no number changes. */
module Validation {
  import opened Model

  /** The smallest profit percentage a target may have. */
  const ProfitFloor: real := 0.01
  /** The largest total of the profit percentages. */
  const ProfitSumCap: real := 500.0
  /** The largest total of the amount percentages. */
  const AmountSumCap: real := 100.0

  /** The profit the pass compares target i against: the raw profit of target i - 1,
      or 0 for the first target. */
  function Previous(ts: seq<Target>, i: int): real
    requires 0 <= i < |ts|
  {
    if i == 0 then 0.0 else ts[i - 1].profit
  }

  /** The profit percentages summed in list order. */
  function ProfitSum(ts: seq<Target>): real
    decreases |ts|
  {
    if |ts| == 0 then 0.0 else ProfitSum(ts[..|ts| - 1]) + ts[|ts| - 1].profit
  }

  /** The amount percentages summed in list order. */
  function AmountSum(ts: seq<Target>): real
    decreases |ts|
  {
    if |ts| == 0 then 0.0 else AmountSum(ts[..|ts| - 1]) + ts[|ts| - 1].amount
  }

  /** Lists with the same numbers have the same sums. */
  lemma {:induction false} SumsDependOnlyOnData(a: seq<Target>, b: seq<Target>)
    requires |a| == |b|
    requires forall i | 0 <= i < |a| :: SameData(a[i], b[i])
    ensures ProfitSum(a) == ProfitSum(b) && AmountSum(a) == AmountSum(b)
    decreases |a|
  {
    if |a| > 0 {
      SumsDependOnlyOnData(a[..|a| - 1], b[..|b| - 1]);
    }
  }

  /** The checks on one target, in order: a profit not above `previous` is flagged
      MinProfitValue, a price not above 0 is flagged MinTradePrice, and a profit
      below the floor is flagged TargetProfit, overriding the first flag. */
  function CheckTarget(t: Target, previous: real): (r: Target)
    ensures SameData(r, t) && r.errors.Some?
    ensures r.errors.value.price == (if t.price <= 0.0 then Some(MinTradePrice) else ErrorsOf(t).price)
    ensures r.errors.value.profit ==
      (if t.profit < ProfitFloor then Some(TargetProfit)
       else if t.profit <= previous then Some(MinProfitValue)
       else ErrorsOf(t).profit)
    ensures r.errors.value.amount == ErrorsOf(t).amount
  {
    var e0 := ErrorsOf(t);
    var e1 := if t.profit <= previous then e0.(profit := Some(MinProfitValue)) else e0;
    var e2 := if t.price <= 0.0 then e1.(price := Some(MinTradePrice)) else e1;
    var e3 := if t.profit < ProfitFloor then e2.(profit := Some(TargetProfit)) else e2;
    t.(errors := Some(e3))
  }

  /** The per-target pass, threading the raw profit of each target to the next. */
  function CheckEach(ts: seq<Target>, previous: real): (r: seq<Target>)
    ensures |r| == |ts|
    ensures forall i | 0 <= i < |ts| :: r[i] == CheckTarget(ts[i], if i == 0 then previous else ts[i - 1].profit)
    decreases |ts|
  {
    if |ts| == 0 then []
    else [CheckTarget(ts[0], previous)] + CheckEach(ts[1..], ts[0].profit)
  }

  /** The amount message for a total `selected` over the cap. */
  function OverAllocated(selected: real): AmountError {
    AmountError(selected, OutOfArea, selected - AmountSumCap)
  }

  /** The aggregate flags on one target: MaxProfitSum on the profit when the profit
      sum is over its cap, the over-allocation message on the amount when the
      amount sum is over its cap. */
  function FlagSums(t: Target, profitSum: real, amountSum: real): (r: Target)
    ensures SameData(r, t)
    ensures profitSum > ProfitSumCap || amountSum > AmountSumCap || t.errors.Some? ==> r.errors.Some?
    ensures !(profitSum > ProfitSumCap || amountSum > AmountSumCap) ==> r == t
    ensures r.errors.Some? ==> r.errors.value.price == ErrorsOf(t).price
    ensures r.errors.Some? ==> r.errors.value.profit == (if profitSum > ProfitSumCap then Some(MaxProfitSum) else ErrorsOf(t).profit)
    ensures r.errors.Some? ==> r.errors.value.amount == (if amountSum > AmountSumCap then Some(OverAllocated(amountSum)) else ErrorsOf(t).amount)
  {
    var t1 := if profitSum > ProfitSumCap then t.(errors := Some(ErrorsOf(t).(profit := Some(MaxProfitSum)))) else t;
    if amountSum > AmountSumCap then t1.(errors := Some(ErrorsOf(t1).(amount := Some(OverAllocated(amountSum))))) else t1
  }

  /** The aggregate passes over the whole list: every target keeps its data; when a
      sum is over its cap every target is annotated, its profit slot carries
      MaxProfitSum (profit sum over 500) and its amount slot the over-allocation
      message (amount sum over 100), its other slots keep what they held; when
      neither sum is over its cap the list is unchanged. */
  function FlagAllSums(ts: seq<Target>, profitSum: real, amountSum: real): (r: seq<Target>)
    ensures |r| == |ts|
    ensures forall i | 0 <= i < |ts| :: r[i] == FlagSums(ts[i], profitSum, amountSum)
    ensures forall i | 0 <= i < |ts| :: SameData(r[i], ts[i])
    ensures !(profitSum > ProfitSumCap || amountSum > AmountSumCap) ==> r == ts
    ensures profitSum > ProfitSumCap || amountSum > AmountSumCap ==>
      forall i | 0 <= i < |ts| ::
        && r[i].errors.Some?
        && r[i].errors.value.price == ErrorsOf(ts[i]).price
        && r[i].errors.value.profit == (if profitSum > ProfitSumCap then Some(MaxProfitSum) else ErrorsOf(ts[i]).profit)
        && r[i].errors.value.amount == (if amountSum > AmountSumCap then Some(OverAllocated(amountSum)) else ErrorsOf(ts[i]).amount)
  {
    seq(|ts|, i requires 0 <= i < |ts| => FlagSums(ts[i], profitSum, amountSum))
  }

  /** Every annotation slot filled in `before` is filled in `after`. */
  predicate KeepsAnnotations(after: TargetErrors, before: TargetErrors) {
    && (before.profit.Some? ==> after.profit.Some?)
    && (before.price.Some? ==> after.price.Some?)
    && (before.amount.Some? ==> after.amount.Some?)
  }

  /** The annotations validation leaves on a target, stated rule by rule with the
      winning rule first instead of as a sequence of writes. For the profit:
      MaxProfitSum when the profit sum is over its cap, else TargetProfit below the
      floor, else MinProfitValue when not above `previous`, else what it held. For
      the price: MinTradePrice when not positive, else what it held. For the amount:
      the over-allocation message carrying the sum and the excess when the amount
      sum is over its cap, else what it held. */
  function Expected(t: Target, previous: real, profitSum: real, amountSum: real): TargetErrors {
    var before := ErrorsOf(t);
    TargetErrors(
      if profitSum > ProfitSumCap then Some(MaxProfitSum)
      else if t.profit < ProfitFloor then Some(TargetProfit)
      else if t.profit <= previous then Some(MinProfitValue)
      else before.profit,
      if t.price <= 0.0 then Some(MinTradePrice) else before.price,
      if amountSum > AmountSumCap then Some(OverAllocated(amountSum)) else before.amount)
  }

  /** The annotations validation leaves on target i of the list. */
  function ExpectedAt(ts: seq<Target>, i: int): TargetErrors
    requires 0 <= i < |ts|
  {
    Expected(ts[i], Previous(ts, i), ProfitSum(ts), AmountSum(ts))
  }

  /** The checks followed by the aggregate flags give the rule-by-rule annotations. */
  lemma CheckThenFlag(t: Target, previous: real, profitSum: real, amountSum: real)
    ensures FlagSums(CheckTarget(t, previous), profitSum, amountSum)
         == t.(errors := Some(Expected(t, previous, profitSum, amountSum)))
  {
  }

  /** `validate`: every target keeps its id and numbers and ends with exactly the
      rule-by-rule annotations. */
  function Validate(ts: seq<Target>): (r: seq<Target>)
    ensures |r| == |ts|
    ensures forall i | 0 <= i < |ts| :: r[i] == ts[i].(errors := Some(ExpectedAt(ts, i)))
  {
    var checked := CheckEach(ts, 0.0);
    var r := FlagAllSums(checked, ProfitSum(ts), AmountSum(ts));
    assert forall i | 0 <= i < |ts| :: r[i] == ts[i].(errors := Some(ExpectedAt(ts, i))) by {
      forall i | 0 <= i < |ts| ensures r[i] == ts[i].(errors := Some(ExpectedAt(ts, i))) {
        assert checked[i] == CheckTarget(ts[i], Previous(ts, i));
        CheckThenFlag(ts[i], Previous(ts, i), ProfitSum(ts), AmountSum(ts));
      }
    }
    r
  }

  /** Validation never empties an annotation slot and never changes an id or a number. */
  lemma ValidateOnlyAddsAnnotations(ts: seq<Target>)
    ensures forall i | 0 <= i < |ts| :: SameData(Validate(ts)[i], ts[i])
    ensures forall i | 0 <= i < |ts| :: KeepsAnnotations(ErrorsOf(Validate(ts)[i]), ErrorsOf(ts[i]))
  {
    var v := Validate(ts);
    forall i | 0 <= i < |ts|
      ensures SameData(v[i], ts[i])
      ensures KeepsAnnotations(ErrorsOf(v[i]), ErrorsOf(ts[i]))
    {
      var e := ExpectedAt(ts, i);
      assert v[i] == ts[i].(errors := Some(e));
      ExpectedKeeps(ts[i], Previous(ts, i), ProfitSum(ts), AmountSum(ts));
      assert ErrorsOf(v[i]) == e;
    }
  }

  /** The rules never empty a slot that held an annotation. */
  lemma ExpectedKeeps(t: Target, previous: real, profitSum: real, amountSum: real)
    ensures KeepsAnnotations(Expected(t, previous, profitSum, amountSum), ErrorsOf(t))
  {
  }

  /** Applying the rules to a target that already carries their outcome changes nothing. */
  lemma ExpectedIdempotent(t: Target, previous: real, profitSum: real, amountSum: real)
    ensures var e := Expected(t, previous, profitSum, amountSum);
            Expected(t.(errors := Some(e)), previous, profitSum, amountSum) == e
  {
  }

  /** Validating an already validated list changes nothing. */
  lemma ValidateIdempotent(ts: seq<Target>)
    ensures Validate(Validate(ts)) == Validate(ts)
  {
    var v := Validate(ts);
    var w := Validate(v);
    assert forall i | 0 <= i < |ts| :: SameData(v[i], ts[i]);
    SumsDependOnlyOnData(v, ts);
    forall i | 0 <= i < |ts| ensures w[i] == v[i] {
      var prev := Previous(ts, i);
      assert Previous(v, i) == prev by {
        if i > 0 {
          assert v[i - 1].profit == ts[i - 1].profit;
        }
      }
      ExpectedIdempotent(ts[i], prev, ProfitSum(ts), AmountSum(ts));
      calc {
        w[i];
        v[i].(errors := Some(ExpectedAt(v, i)));
        v[i].(errors := Some(Expected(v[i], prev, ProfitSum(ts), AmountSum(ts))));
        v[i];
      }
    }
  }

  /** A target list carries no annotation at all. */
  predicate Unannotated(ts: seq<Target>) {
    forall i | 0 <= i < |ts| :: ErrorsOf(ts[i]) == NoErrors
  }

  /** The conditions under which no rule fires: profits at or above the floor and
      strictly increasing from 0, positive prices, and both sums within their caps. */
  predicate Acceptable(ts: seq<Target>) {
    forall i | 0 <= i < |ts| :: Passes(ts[i], Previous(ts, i), ProfitSum(ts), AmountSum(ts))
  }

  /** No rule fires on one target. */
  predicate Passes(t: Target, previous: real, profitSum: real, amountSum: real) {
    && t.profit >= ProfitFloor && t.profit > previous && t.price > 0.0
    && profitSum <= ProfitSumCap && amountSum <= AmountSumCap
  }

  /** The rules leave a target without annotations exactly when it had none and no
      rule fires. */
  lemma ExpectedEmptyIff(t: Target, previous: real, profitSum: real, amountSum: real)
    ensures Expected(t, previous, profitSum, amountSum) == NoErrors
        <==> ErrorsOf(t) == NoErrors && Passes(t, previous, profitSum, amountSum)
  {
  }

  /** Validation leaves every annotation slot empty exactly when none was filled
      before and no rule fires. */
  lemma ValidatePassesExactlyAcceptable(ts: seq<Target>)
    ensures Unannotated(Validate(ts)) <==> Unannotated(ts) && Acceptable(ts)
  {
    var v := Validate(ts);
    var pSum, aSum := ProfitSum(ts), AmountSum(ts);
    forall i | 0 <= i < |ts|
      ensures ErrorsOf(v[i]) == NoErrors <==> ErrorsOf(ts[i]) == NoErrors && Passes(ts[i], Previous(ts, i), pSum, aSum)
    {
      assert ErrorsOf(v[i]) == ExpectedAt(ts, i);
      ExpectedEmptyIff(ts[i], Previous(ts, i), pSum, aSum);
    }
    if Unannotated(v) && |ts| > 0 {
      assert ErrorsOf(v[0]) == NoErrors;
      assert Passes(ts[0], Previous(ts, 0), pSum, aSum);
    }
  }

  /** Worked instances of the rules. Two targets at 1 %: the second is flagged as not
      above the first. Profits 1 % and 500 %, summing to 501: both targets are
      flagged MaxProfitSum, overriding any per-target flag. Amounts 60 % and 60 %:
      both targets carry the message for 120 selected, 20 too many. */
  lemma ValidateExamples()
    ensures var ts := [Target("a", 1.0, 101.0, 10.0, None), Target("b", 1.0, 101.0, 10.0, None)];
            Validate(ts)[1].errors.value.profit == Some(MinProfitValue)
    ensures var ts := [Target("a", 1.0, 101.0, 10.0, Some(TargetErrors(Some(TargetProfit), None, None))),
                       Target("b", 500.0, 600.0, 10.0, None)];
            forall i | 0 <= i < 2 :: Validate(ts)[i].errors.value.profit == Some(MaxProfitSum)
    ensures var ts := [Target("a", 1.0, 101.0, 60.0, None), Target("b", 2.0, 102.0, 60.0, None)];
            forall i | 0 <= i < 2 :: Validate(ts)[i].errors.value.amount == Some(AmountError(120.0, OutOfArea, 20.0))
  {
    var ts1 := [Target("a", 1.0, 101.0, 10.0, None), Target("b", 1.0, 101.0, 10.0, None)];
    assert ts1[..1][..0] == [];
    assert ProfitSum(ts1) == 2.0;
    var ts2 := [Target("a", 1.0, 101.0, 10.0, Some(TargetErrors(Some(TargetProfit), None, None))),
                Target("b", 500.0, 600.0, 10.0, None)];
    assert ts2[..1][..0] == [];
    assert ProfitSum(ts2) == 501.0;
    var ts3 := [Target("a", 1.0, 101.0, 60.0, None), Target("b", 2.0, 102.0, 60.0, None)];
    assert ts3[..1][..0] == [];
    assert AmountSum(ts3) == 120.0;
  }
}
