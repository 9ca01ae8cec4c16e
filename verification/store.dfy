/** The order-form store: the order (side, price, amount), the take-profit switch
    and the target list, the getters derived from them, and the actions the form
    performs on it. The form's reactions are written out as explicit composite
    actions: a price entry re-prices the targets, the add button is offered only
    below the cap, and submitting runs validation. */
module PlaceOrder {
  import opened Model
  import opened Conversion
  import opened Targets
  import Projection
  import Validation

  /** The store's state. */
  datatype Store = Store(side: OrderSide, price: real, amount: real, takeProfitIsOn: bool, targets: seq<Target>)

  /** The state a form session starts in: a buy order at price 0 for amount 0,
      take-profit off, no targets. */
  function Initial(): Store {
    Store(Buy, 0.0, 0.0, false, [])
  }

  /** `total`: price times amount. */
  function Total(s: Store): real {
    Conversion.Total(s.price, s.amount)
  }

  /** `setTotal`: back-solves the amount from a total at the current price. */
  function SetTotal(s: Store, total: real): (r: Store)
    ensures r.(amount := s.amount) == s
    ensures s.price > 0.0 ==> Total(r) == total
    ensures s.price <= 0.0 ==> r.amount == 0.0
  {
    s.(amount := AmountForTotal(s.price, total))
  }

  /** `setTakeProfit(value?)`: the switch ends on exactly when `value` is true. Turning
      it on replaces the list by one new target; turning it off, or calling it with
      no value, keeps the list as it is. */
  function SetTakeProfit(cfg: Config, s: Store, value: Option<bool>, id: string): (r: Store)
    ensures r.takeProfitIsOn <==> value == Some(true)
    ensures r.(takeProfitIsOn := s.takeProfitIsOn, targets := s.targets) == s
    ensures value != Some(true) ==> r.targets == s.targets
    ensures value == Some(true) ==>
      && |r.targets| == 1
      && r.targets[0].id == id
      && r.targets[0].profit == cfg.profitStep
      && r.targets[0].price == NewPrice(s.price, cfg.profitStep)
      && r.targets[0].amount == cfg.amountToProfit
      && r.targets[0].errors == None
  {
    var on := value == Some(true);
    if on then s.(takeProfitIsOn := true, targets := [NewProfitTarget(cfg, s.price, [], id)])
    else s.(takeProfitIsOn := false)
  }

  /** `totalProfit`: the projected profit of the current plan. The order side only
      contributes a sign. */
  function TotalProfit(s: Store): (r: real)
    ensures |s.targets| == 0 ==> r == 0.0
    ensures r == Projection.Sign(s.side) * Projection.TotalProfit(Buy, s.price, s.amount, s.targets)
  {
    Projection.SellIsNegatedBuy(s.price, s.amount, s.targets);
    Projection.TotalProfit(s.side, s.price, s.amount, s.targets)
  }

  /** `isMaxProfitTargets`: the list is at or over the cap. */
  function IsMaxProfitTargets(cfg: Config, s: Store): bool {
    |s.targets| >= cfg.maxProfitTargets
  }

  /** A price entry: `setPrice` followed by the re-pricing reaction. Every target
      keeps its profit percentage and is re-priced from it at the new price. */
  function ChangePrice(s: Store, price: real): (r: Store)
    ensures r.(targets := s.targets, price := s.price) == s
    ensures r.price == price && |r.targets| == |s.targets|
    ensures forall i | 0 <= i < |s.targets| ::
      && r.targets[i].(price := s.targets[i].price) == s.targets[i]
      && r.targets[i].price == NewPrice(price, s.targets[i].profit)
  {
    var r := s.(price := price, targets := UpdateProfitTargets(price, s.targets));
    assert AllReconciled(price, r.targets);
    r
  }

  /** The add button: offered only while the list is below the cap. */
  function AddIfRoom(cfg: Config, s: Store, id: string): (r: Store)
    requires FreshId(s.targets, id)
    ensures r.(targets := s.targets) == s
    ensures IsMaxProfitTargets(cfg, s) ==> r == s
    ensures !IsMaxProfitTargets(cfg, s) ==> |r.targets| == |s.targets| + 1 && r.targets[..|s.targets|] == s.targets
    ensures |r.targets| <= if |s.targets| < cfg.maxProfitTargets then cfg.maxProfitTargets else |s.targets|
  {
    if IsMaxProfitTargets(cfg, s) then s
    else s.(targets := AddProfitTarget(cfg, s.price, s.targets, id))
  }

  /** What the form can do to the store. */
  datatype Action =
    | ChooseSide(side: OrderSide)
    | EnterPrice(price: real)
    | EnterAmount(amount: real)
    | EnterTotal(total: real)
    | SwitchTakeProfit(on: Option<bool>, newId: string)
    | AddTarget(newId: string)
    | RemoveTarget(id: string)
    | EditTarget(id: string, field: Field, value: FieldValue)
    | Submit

  /** The id generator's promise: an id handed to a new target is not live. */
  predicate Allowed(s: Store, a: Action) {
    a.AddTarget? ==> FreshId(s.targets, a.newId)
  }

  /** One action of the form applied to the store. */
  function Step(cfg: Config, s: Store, a: Action): Store
    requires Allowed(s, a)
  {
    match a
    case ChooseSide(side) => s.(side := side)
    case EnterPrice(price) => ChangePrice(s, price)
    case EnterAmount(amount) => s.(amount := amount)
    case EnterTotal(total) => SetTotal(s, total)
    case SwitchTakeProfit(value, newId) => SetTakeProfit(cfg, s, value, newId)
    case AddTarget(newId) => AddIfRoom(cfg, s, newId)
    case RemoveTarget(id) => s.(targets := RemoveProfitTarget(s.targets, id))
    case EditTarget(id, field, value) => s.(targets := UpdateField(s.price, s.targets, id, field, value))
    case Submit => s.(targets := Validation.Validate(s.targets))
  }

  /** The state the form keeps: ids are unique, every target is priced from its
      profit at the current order price, and the list is within the cap. */
  predicate Wellformed(cfg: Config, s: Store) {
    && DistinctIds(s.targets)
    && AllReconciled(s.price, s.targets)
    && |s.targets| <= cfg.maxProfitTargets
  }

  /** Every action of the form keeps the store well formed. */
  lemma StepKeepsWellformed(cfg: Config, s: Store, a: Action)
    requires ValidConfig(cfg) && Wellformed(cfg, s) && Allowed(s, a)
    ensures Wellformed(cfg, Step(cfg, s, a))
  {
    var r := Step(cfg, s, a);
    match a
    case ChooseSide(_) =>
    case EnterPrice(price) =>
      assert AllReconciled(price, r.targets);
      assert DistinctIds(r.targets) by {
        forall i, j | 0 <= i < j < |r.targets| ensures r.targets[i].id != r.targets[j].id {
          assert r.targets[i].id == s.targets[i].id;
          assert r.targets[j].id == s.targets[j].id;
        }
      }
    case EnterAmount(_) =>
    case EnterTotal(_) =>
    case SwitchTakeProfit(value, newId) =>
      if value == Some(true) {
        assert Reconciled(r.price, r.targets[0]);
      }
    case AddTarget(newId) =>
    case RemoveTarget(id) =>
      RemoveKeepsDistinct(s.targets, id);
      RemoveKeepsReconciled(s.price, s.targets, id);
    case EditTarget(id, field, value) =>
      UpdateFieldKeepsReconciled(s.price, s.targets, id, field, value);
      assert DistinctIds(r.targets) by {
        forall i, j | 0 <= i < j < |r.targets| ensures r.targets[i].id != r.targets[j].id {
          assert r.targets[i].id == s.targets[i].id;
          assert r.targets[j].id == s.targets[j].id;
        }
      }
    case Submit =>
      var v := r.targets;
      assert forall i | 0 <= i < |v| :: SameData(v[i], s.targets[i]);
      assert AllReconciled(r.price, v) by {
        forall i | 0 <= i < |v| ensures Reconciled(r.price, v[i]) {
          assert Reconciled(s.price, s.targets[i]);
        }
      }
      assert DistinctIds(v) by {
        forall i, j | 0 <= i < j < |v| ensures v[i].id != v[j].id {
          assert v[i].id == s.targets[i].id;
          assert v[j].id == s.targets[j].id;
        }
      }
  }

  /** A session can play `acts` from `s` when every id handed out is fresh at the
      moment it is handed out. */
  predicate Playable(cfg: Config, s: Store, acts: seq<Action>)
    decreases |acts|
  {
    |acts| == 0 || (Allowed(s, acts[0]) && Playable(cfg, Step(cfg, s, acts[0]), acts[1..]))
  }

  /** The store after the form performed `acts` in order. */
  function Run(cfg: Config, s: Store, acts: seq<Action>): Store
    requires Playable(cfg, s, acts)
    decreases |acts|
  {
    if |acts| == 0 then s else Run(cfg, Step(cfg, s, acts[0]), acts[1..])
  }

  /** Every state a session reaches from a well formed one is well formed: ids stay
      unique, targets stay priced from their profits, and, with the add button's
      guard, the list never grows past the cap. */
  lemma {:induction false} RunKeepsWellformed(cfg: Config, s: Store, acts: seq<Action>)
    requires ValidConfig(cfg) && Wellformed(cfg, s) && Playable(cfg, s, acts)
    ensures Wellformed(cfg, Run(cfg, s, acts))
    decreases |acts|
  {
    if |acts| > 0 {
      StepKeepsWellformed(cfg, s, acts[0]);
      RunKeepsWellformed(cfg, Step(cfg, s, acts[0]), acts[1..]);
    }
  }

  /** A session starts well formed, so it stays well formed. */
  lemma SessionStaysWellformed(cfg: Config, acts: seq<Action>)
    requires ValidConfig(cfg) && Playable(cfg, Initial(), acts)
    ensures Wellformed(cfg, Run(cfg, Initial(), acts))
  {
    RunKeepsWellformed(cfg, Initial(), acts);
  }

  /** Entering a price without the re-pricing reaction can leave a target priced
      from the old order price; the reaction repairs it. */
  lemma PriceEntryNeedsRepricing()
    ensures var s := Store(Buy, 100.0, 1.0, true, [Target("a", 10.0, 110.0, 50.0, None)]);
            && Wellformed(Config(10.0, 50.0, 5), s)
            && !AllReconciled(200.0, s.(price := 200.0).targets)
            && AllReconciled(200.0, ChangePrice(s, 200.0).targets)
  {
    var s := Store(Buy, 100.0, 1.0, true, [Target("a", 10.0, 110.0, 50.0, None)]);
    assert !Reconciled(200.0, s.targets[0]);
    assert AllReconciled(200.0, ChangePrice(s, 200.0).targets);
  }
}
