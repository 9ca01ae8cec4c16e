/** The operations on the ordered list of take-profit targets: creating, appending
    and removing targets, re-pricing them after the order price moves, and editing
    one field of one target. Every operation is a pure function from the old list
    to the new one. */
module Targets {
  import opened Model
  import opened Conversion

  /** No target of the list carries `id`: what the id generator guarantees. */
  predicate FreshId(ts: seq<Target>, id: string) {
    forall i | 0 <= i < |ts| :: ts[i].id != id
  }

  /** No two targets of the list share an id. */
  predicate DistinctIds(ts: seq<Target>) {
    forall i, j | 0 <= i < j < |ts| :: ts[i].id != ts[j].id
  }

  /** The profit percentages strictly increase along the list. */
  predicate Increasing(ts: seq<Target>) {
    forall i, j | 0 <= i < j < |ts| :: ts[i].profit < ts[j].profit
  }

  /** `find` by id: the index of the first target carrying `id`, if any. */
  function Find(ts: seq<Target>, id: string): (k: Option<nat>)
    ensures k.Some? ==> k.value < |ts| && ts[k.value].id == id
    ensures k.Some? ==> forall j | 0 <= j < k.value :: ts[j].id != id
    ensures k.None? <==> FreshId(ts, id)
    decreases |ts|
  {
    if |ts| == 0 then None
    else if ts[0].id == id then Some(0)
    else
      match Find(ts[1..], id)
      case None => None
      case Some(k) => Some(k + 1)
  }

  /** Lists that agree on every id agree on where `id` is found first. */
  lemma {:induction false} FindDependsOnlyOnIds(a: seq<Target>, b: seq<Target>, id: string)
    requires |a| == |b|
    requires forall i | 0 <= i < |a| :: a[i].id == b[i].id
    ensures Find(a, id) == Find(b, id)
  {
  }

  /** `newProfitTarget`: a fresh target one profit step above the last one (or one
      step above zero for an empty list), priced at the order price, with the
      default amount and no annotations. */
  function NewProfitTarget(cfg: Config, orderPrice: real, ts: seq<Target>, id: string): (t: Target)
    ensures t.id == id && t.errors == None && t.amount == cfg.amountToProfit
    ensures |ts| == 0 ==> t.profit == cfg.profitStep
    ensures |ts| > 0 ==> t.profit - ts[|ts| - 1].profit == cfg.profitStep
    ensures Reconciled(orderPrice, t)
  {
    var profit := if |ts| > 0 then ts[|ts| - 1].profit + cfg.profitStep else cfg.profitStep;
    Target(id, profit, NewPrice(orderPrice, profit), cfg.amountToProfit, None)
  }

  /** `addProfitTarget`: appends one new target after the unchanged existing ones.
      It does not look at the cap; the caller does. */
  function AddProfitTarget(cfg: Config, orderPrice: real, ts: seq<Target>, id: string): (r: seq<Target>)
    requires FreshId(ts, id)
    ensures |r| == |ts| + 1 && r[..|ts|] == ts
    ensures r[|ts|] == NewProfitTarget(cfg, orderPrice, ts, id)
    ensures DistinctIds(ts) ==> DistinctIds(r)
    ensures AllReconciled(orderPrice, ts) ==> AllReconciled(orderPrice, r)
    ensures cfg.profitStep > 0.0 && Increasing(ts) ==> Increasing(r)
  {
    ts + [NewProfitTarget(cfg, orderPrice, ts, id)]
  }

  /** How many targets of the list carry `id`. */
  function Occurrences(ts: seq<Target>, id: string): nat
    decreases |ts|
  {
    if |ts| == 0 then 0 else (if ts[0].id == id then 1 else 0) + Occurrences(ts[1..], id)
  }

  /** `removeProfitTarget`: filters out the targets carrying `id`. */
  function RemoveProfitTarget(ts: seq<Target>, id: string): (r: seq<Target>)
    ensures |r| + Occurrences(ts, id) == |ts|
    ensures FreshId(ts, id) ==> r == ts
    decreases |ts|
  {
    if |ts| == 0 then []
    else (if ts[0].id == id then [] else [ts[0]]) + RemoveProfitTarget(ts[1..], id)
  }

  /** Removal filters each part of a list on its own: the kept targets stay in
      their original order, whatever the number of targets carrying `id`. */
  lemma {:induction false} RemoveDistributes(a: seq<Target>, b: seq<Target>, id: string)
    ensures RemoveProfitTarget(a + b, id) == RemoveProfitTarget(a, id) + RemoveProfitTarget(b, id)
    decreases |a|
  {
    if |a| > 0 {
      assert (a + b)[1..] == a[1..] + b;
      RemoveDistributes(a[1..], b, id);
    } else {
      assert a + b == b;
    }
  }

  /** Removal keeps exactly the targets whose id differs from `id`. */
  lemma {:induction false} RemoveKeepsExactlyOthers(ts: seq<Target>, id: string)
    ensures forall t | t in RemoveProfitTarget(ts, id) :: t in ts && t.id != id
    ensures forall t | t in ts && t.id != id :: t in RemoveProfitTarget(ts, id)
    decreases |ts|
  {
    if |ts| > 0 {
      var tail := ts[1..];
      RemoveKeepsExactlyOthers(tail, id);
      var r := RemoveProfitTarget(ts, id);
      var rest := RemoveProfitTarget(tail, id);
      assert r == (if ts[0].id == id then [] else [ts[0]]) + rest;
      forall t | t in ts && t.id != id ensures t in r {
        if t != ts[0] {
          assert t in tail;
        }
      }
    }
  }

  /** Removing an id that only the target at index k carries splices that target
      out and keeps the others in their original order. */
  lemma {:induction false} RemoveOnlyAt(ts: seq<Target>, id: string, k: nat)
    requires k < |ts| && ts[k].id == id
    requires forall j | 0 <= j < |ts| && j != k :: ts[j].id != id
    ensures RemoveProfitTarget(ts, id) == ts[..k] + ts[k + 1..]
    decreases k
  {
    var tail := ts[1..];
    if k == 0 {
      assert FreshId(tail, id);
      assert RemoveProfitTarget(ts, id) == [] + RemoveProfitTarget(tail, id);
    } else {
      assert tail[k - 1].id == id;
      assert forall j | 0 <= j < |tail| && j != k - 1 :: tail[j].id != id by {
        forall j | 0 <= j < |tail| && j != k - 1 ensures tail[j].id != id {
          assert tail[j] == ts[j + 1];
        }
      }
      RemoveOnlyAt(tail, id, k - 1);
      var rest := RemoveProfitTarget(tail, id);
      assert ts[0].id != id;
      assert RemoveProfitTarget(ts, id) == [ts[0]] + rest;
      SpliceAfterHead(ts, rest, k);
    }
  }

  /** With unique ids, removing the target at index k splices it out and keeps the
      others in their original order. */
  lemma RemoveSplicesOut(ts: seq<Target>, id: string, k: nat)
    requires DistinctIds(ts)
    requires k < |ts| && ts[k].id == id
    ensures RemoveProfitTarget(ts, id) == ts[..k] + ts[k + 1..]
  {
    forall j | 0 <= j < |ts| && j != k ensures ts[j].id != id {
      if j < k {
        assert ts[j].id != ts[k].id;
      } else {
        assert ts[k].id != ts[j].id;
      }
    }
    RemoveOnlyAt(ts, id, k);
  }

  /** Splicing index k out of a list is keeping its head and splicing k - 1 out of its tail. */
  lemma SpliceAfterHead<T>(ts: seq<T>, rest: seq<T>, k: nat)
    requires 0 < k < |ts|
    requires rest == ts[1..][..k - 1] + ts[1..][k..]
    ensures [ts[0]] + rest == ts[..k] + ts[k + 1..]
  {
  }

  /** Removal keeps the prices reconciled. */
  lemma RemoveKeepsReconciled(orderPrice: real, ts: seq<Target>, id: string)
    requires AllReconciled(orderPrice, ts)
    ensures AllReconciled(orderPrice, RemoveProfitTarget(ts, id))
  {
  }

  /** Removal keeps the ids unique. */
  lemma {:induction false} RemoveKeepsDistinct(ts: seq<Target>, id: string)
    requires DistinctIds(ts)
    ensures DistinctIds(RemoveProfitTarget(ts, id))
    decreases |ts|
  {
    if |ts| > 0 {
      var tail := ts[1..];
      assert DistinctIds(tail);
      RemoveKeepsDistinct(tail, id);
      var rest := RemoveProfitTarget(tail, id);
      var r := RemoveProfitTarget(ts, id);
      assert r == (if ts[0].id == id then [] else [ts[0]]) + rest;
      if ts[0].id != id {
        RemoveKeepsExactlyOthers(tail, id);
        forall j | 0 < j < |r| ensures r[0].id != r[j].id {
          assert r[j] == rest[j - 1];
          assert r[j] in tail;
        }
      }
    }
  }

  /** Removal keeps the profits strictly increasing. */
  lemma {:induction false} RemoveKeepsIncreasing(ts: seq<Target>, id: string)
    requires Increasing(ts)
    ensures Increasing(RemoveProfitTarget(ts, id))
    decreases |ts|
  {
    if |ts| > 0 {
      var tail := ts[1..];
      assert Increasing(tail);
      RemoveKeepsIncreasing(tail, id);
      var rest := RemoveProfitTarget(tail, id);
      var r := RemoveProfitTarget(ts, id);
      assert r == (if ts[0].id == id then [] else [ts[0]]) + rest;
      if ts[0].id != id {
        RemoveKeepsExactlyOthers(tail, id);
        forall j | 0 < j < |r| ensures r[0].profit < r[j].profit {
          assert r[j] == rest[j - 1];
          assert r[j] in tail;
        }
      }
    }
  }

  /** `updateProfitTargets`: re-prices every target from its own profit percentage at
      the current order price; nothing but the price of a target changes. */
  function UpdateProfitTargets(orderPrice: real, ts: seq<Target>): (r: seq<Target>)
    ensures |r| == |ts|
    ensures forall i | 0 <= i < |ts| :: r[i].(price := ts[i].price) == ts[i]
    ensures AllReconciled(orderPrice, r)
  {
    seq(|ts|, i requires 0 <= i < |ts| => ts[i].(price := NewPrice(orderPrice, ts[i].profit)))
  }

  /** Re-pricing changes nothing exactly when the list is already reconciled. */
  lemma RepricingFixesExactlyReconciled(orderPrice: real, ts: seq<Target>)
    ensures UpdateProfitTargets(orderPrice, ts) == ts <==> AllReconciled(orderPrice, ts)
  {
  }

  /** `updateFieldById`: writes `v` into `field` of every target carrying `id`, and
      drops the annotations of every target of the list, edited or not. */
  function UpdateFieldById(ts: seq<Target>, id: string, field: Field, v: real): (r: seq<Target>)
    ensures |r| == |ts|
    ensures forall i | 0 <= i < |ts| :: r[i].errors == None && r[i].id == ts[i].id
    ensures forall i | 0 <= i < |ts| && ts[i].id == id :: Get(r[i], field) == v
    ensures forall i, f | 0 <= i < |ts| && (ts[i].id != id || f != field) :: Get(r[i], f) == Get(ts[i], f)
  {
    seq(|ts|, i requires 0 <= i < |ts| =>
      var t := ts[i].(errors := None);
      if t.id == id then With(t, field, v) else t)
  }

  /** The guard `!!value || value === 0 || value === null`: over reals it only
      rejects `undefined`. */
  predicate Supplied(value: FieldValue) {
    !value.Undefined?
  }

  /** `Number(value)` of a supplied value: `null` reads as 0. */
  function ToNumber(value: FieldValue): real
    requires Supplied(value)
  {
    if value.Null? then 0.0 else value.n
  }

  /** `updateField`, as written: writes a supplied value, then recomputes the EDITED
      field from its partner, read from the first target carrying `id` (a missing
      target reads as 0). So a profit or price edit ends at the value derived from the
      other field, whatever was typed; only an amount edit keeps the typed value. An
      amount edit with no value changes nothing; every other call drops the
      annotations of all targets. */
  function UpdateField(orderPrice: real, ts: seq<Target>, id: string, field: Field, value: FieldValue): (r: seq<Target>)
    ensures |r| == |ts|
    ensures forall i | 0 <= i < |ts| :: r[i].id == ts[i].id
    ensures field == Amount && !Supplied(value) ==> r == ts
    ensures field != Amount || Supplied(value) ==> forall i | 0 <= i < |ts| :: r[i].errors == None
    ensures forall i, f | 0 <= i < |ts| && (ts[i].id != id || f != field) :: Get(r[i], f) == Get(ts[i], f)
    ensures field == Amount ==>
      forall i | 0 <= i < |ts| && ts[i].id == id ::
        r[i].amount == (if Supplied(value) then ToNumber(value) else ts[i].amount)
    ensures field == Profit && Find(ts, id).Some? ==>
      forall i | 0 <= i < |ts| && ts[i].id == id ::
        r[i].profit == NewProfit(orderPrice, ts[Find(ts, id).value].price)
    ensures field == Price && Find(ts, id).Some? ==>
      forall i | 0 <= i < |ts| && ts[i].id == id ::
        r[i].price == NewPrice(orderPrice, ts[Find(ts, id).value].profit)
  {
    var written := if Supplied(value) then UpdateFieldById(ts, id, field, ToNumber(value)) else ts;
    FindDependsOnlyOnIds(written, ts, id);
    var found := Find(written, id);
    match field
    case Profit =>
      UpdateFieldById(written, id, Profit, NewProfit(orderPrice, if found.Some? then written[found.value].price else 0.0))
    case Price =>
      UpdateFieldById(written, id, Price, NewPrice(orderPrice, if found.Some? then written[found.value].profit else 0.0))
    case Amount =>
      written
  }

  /** With unique ids, an edit keeps every target reconciled with the order price:
      a profit edit re-derives the profit from the price, a price edit re-derives
      the price from the profit, and an amount edit touches neither. */
  lemma UpdateFieldKeepsReconciled(orderPrice: real, ts: seq<Target>, id: string, field: Field, value: FieldValue)
    requires DistinctIds(ts) && AllReconciled(orderPrice, ts)
    ensures AllReconciled(orderPrice, UpdateField(orderPrice, ts, id, field, value))
  {
  }

  /** The edit as written never changes the numbers of a reconciled target through a
      profit or price edit at a non-zero order price: the typed value is lost. */
  lemma {:induction false} UpdateFieldDiscardsTypedValue(orderPrice: real, ts: seq<Target>, k: nat, field: Field, value: FieldValue)
    requires DistinctIds(ts) && k < |ts| && Reconciled(orderPrice, ts[k])
    requires orderPrice != 0.0 && field != Amount
    ensures SameData(UpdateField(orderPrice, ts, ts[k].id, field, value)[k], ts[k])
  {
    var id := ts[k].id;
    var r := UpdateField(orderPrice, ts, id, field, value);
    var j := Find(ts, id).value;
    assert j == k;
    assert Get(r[k], Amount) == Get(ts[k], Amount);
    if field == Profit {
      assert Get(r[k], Price) == Get(ts[k], Price);
      ProfitPriceRoundTrip(orderPrice, ts[k].profit);
    } else {
      assert Get(r[k], Profit) == Get(ts[k], Profit);
    }
  }

  /** A concrete instance: at order price 100 a target at 2 % / 102 edited to a
      profit of 5 % still shows 2 % afterwards. */
  lemma TypedProfitIsLost()
    ensures var ts := [Target("a", 2.0, 102.0, 50.0, None)];
            UpdateField(100.0, ts, "a", Profit, Number(5.0))[0].profit == 2.0
  {
  }
}
