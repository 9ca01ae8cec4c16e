/** The data model of the order form: the order side, the validation messages,
    a take-profit target with its optional error annotations, the fields an edit
    can name, and the configured constants the store reads. */
module Model {

  /** An optional value; stands for a TypeScript property that may be missing. */
  datatype Option<+T> = None | Some(value: T)

  /** The two sides of an order ("buy" | "sell"). */
  datatype OrderSide = Buy | Sell

  /** The five validation messages of the `Errors` enumeration. */
  datatype Error =
    | MaxProfitSum     // "Maximum profit sum is 500%"
    | MinProfitValue   // "Minimum value is 0.01"
    | TargetProfit     // "Each target's profit should be greater than the previous one"
    | MinTradePrice    // "Price must be greater than 0"
    | OutOfArea        // "out of 100% selected. Please decrease by"

  /** The composed amount message "{selected} {message} {excess}", kept as its parts
      instead of as rendered text. */
  datatype AmountError = AmountError(selected: real, message: Error, excess: real)

  /** The per-field error annotations of one target; every slot is optional. */
  datatype TargetErrors = TargetErrors(profit: Option<Error>, price: Option<Error>, amount: Option<AmountError>)

  /** The empty annotation object `{}`. */
  const NoErrors := TargetErrors(None, None, None)

  /** One take-profit target: profit and amount are percentages, price is absolute. */
  datatype Target = Target(id: string, profit: real, price: real, amount: real, errors: Option<TargetErrors>)

  /** The fields an edit may name: exactly `profit`, `price` and `amount`. */
  datatype Field = Profit | Price | Amount

  /** The value handed to an edit: `undefined`, `null` or a number. */
  datatype FieldValue = Undefined | Null | Number(n: real)

  /** The configured constants: PROFIT_STEP, AMOUNT_TO_PROFIT and MAX_PROFIT_TARGETS.
      Their values are not part of this model; they are parameters. */
  datatype Config = Config(profitStep: real, amountToProfit: real, maxProfitTargets: int)

  /** The only assumption made about the constants: the cap admits one target. */
  predicate ValidConfig(cfg: Config) {
    cfg.maxProfitTargets >= 1
  }

  /** Reads one editable field of a target. */
  function Get(t: Target, field: Field): real {
    match field
    case Profit => t.profit
    case Price => t.price
    case Amount => t.amount
  }

  /** Writes one editable field of a target and nothing else. */
  function With(t: Target, field: Field, v: real): (r: Target)
    ensures Get(r, field) == v
    ensures r.id == t.id && r.errors == t.errors
    ensures forall f: Field :: f != field ==> Get(r, f) == Get(t, f)
  {
    match field
    case Profit => t.(profit := v)
    case Price => t.(price := v)
    case Amount => t.(amount := v)
  }

  /** The error annotations of a target, reading a missing object as `{}`. */
  function ErrorsOf(t: Target): TargetErrors {
    if t.errors.Some? then t.errors.value else NoErrors
  }

  /** Two targets carry the same id and the same three numbers. */
  predicate SameData(a: Target, b: Target) {
    a.id == b.id && a.profit == b.profit && a.price == b.price && a.amount == b.amount
  }

  /** The only fields an edit can reach are the three numeric ones: an edit of any
      field to any value leaves the id and the annotations alone, and a target is
      determined by its id, its annotations and the three fields. */
  lemma FieldsAreExactlyTheNumbers(t: Target, u: Target)
    requires t.id == u.id && t.errors == u.errors
    requires forall f: Field :: Get(t, f) == Get(u, f)
    ensures t == u
  {
    assert Get(t, Profit) == Get(u, Profit);
    assert Get(t, Price) == Get(u, Price);
    assert Get(t, Amount) == Get(u, Amount);
  }
}
