/**
 * The two pure helpers of `Contracts`: the gas safety margin applied to every
 * node estimate, and the normalisation of a price argument to an amount.
 */
module GasAndPrice {
  import opened Wrappers

  /** Gas added on top of the node's estimate. */
  const SafetyMargin: int := 100
  /** Hard cap on the gas limit of any transaction the SDK builds. */
  const GasCap: int := 4000000

  /** `toSafeGasLimit`: the estimate plus the margin, but never above the cap
      (`Math.min(gasAmount + 100, 4000000)`). The three clauses say r is the minimum. */
  function ToSafeGasLimit(gasAmount: int): (r: int)
    ensures r <= GasCap && r <= gasAmount + SafetyMargin
    ensures r == GasCap || r == gasAmount + SafetyMargin
  {
    if gasAmount + SafetyMargin < GasCap then gasAmount + SafetyMargin else GasCap
  }

  lemma SafeGasLimitBelowThreshold(gasAmount: int)
    requires gasAmount <= GasCap - SafetyMargin
    ensures ToSafeGasLimit(gasAmount) == gasAmount + SafetyMargin
  {
  }

  lemma SafeGasLimitAboveThreshold(gasAmount: int)
    requires gasAmount > GasCap - SafetyMargin
    ensures ToSafeGasLimit(gasAmount) == GasCap
  {
  }

  /** A larger estimate never gives a smaller limit. */
  lemma SafeGasLimitMonotone(a: int, b: int)
    requires a <= b
    ensures ToSafeGasLimit(a) <= ToSafeGasLimit(b)
  {
  }

  /** A single price argument: a bare amount (`BigInteger`) or a price record (`IPrice`).
      `value` is `None` when the record has no `value` property; the record's
      other properties are carried along unexamined in `others`. */
  datatype PriceLike =
    | Amount(amount: int)
    | PriceRecord(value: Option<int>, others: map<string, int>)

  /** What `calculatePrice` accepts: one price-like value or an array of them. */
  datatype PriceArg = One(item: PriceLike) | Many(items: seq<PriceLike>)

  /** Reading `.value` of `undefined` (element 0 of an empty array) throws a TypeError. */
  datatype PriceError = EmptyPriceArray

  /** JavaScript truthiness of a record's `value`: absent and `0` are falsy. */
  predicate ValueTruthy(p: PriceLike)
  {
    p.PriceRecord? && p.value.Some? && p.value.value != 0
  }

  /** A price-like value that `calculatePrice` hands back unchanged: a bare amount, or a
      record whose `value` is falsy. */
  predicate Normal(p: PriceLike)
  {
    !ValueTruthy(p)
  }

  /** The element `calculatePrice` looks at: the argument itself, or element 0 of an array. */
  function Selected(arg: PriceArg): (r: Option<PriceLike>)
    ensures r.None? <==> arg.Many? && |arg.items| == 0
    ensures arg.One? ==> r == Some(arg.item)
    ensures arg.Many? && |arg.items| > 0 ==> r == Some(arg.items[0])
  {
    match arg
    case One(p) => Some(p)
    case Many(items) => if |items| == 0 then None else Some(items[0])
  }

  /** `calculatePrice`: from an array only element 0 counts; then `price.value || price`,
      so a record with a truthy `value` gives that value, and anything else (a bare
      amount, a record whose `value` is absent or 0) comes back as it is. */
  function CalculatePrice(arg: PriceArg): (r: Result<PriceLike, PriceError>)
    ensures r.Failure? <==> arg.Many? && |arg.items| == 0
    ensures r.Success? ==> Normal(r.value)
    ensures forall v, o :: Selected(arg) == Some(PriceRecord(Some(v), o)) && v != 0 ==> r == Success(Amount(v))
    ensures forall p :: Selected(arg) == Some(p) && !ValueTruthy(p) ==> r == Success(p)
  {
    match Selected(arg)
    case None => Failure(EmptyPriceArray)
    case Some(p) =>
      if ValueTruthy(p) then Success(Amount(p.value.value)) else Success(p)
  }

  /** Only element 0 of an array matters: the rest of the array is never read. */
  lemma CalculatePriceUsesHead(first: PriceLike, rest: seq<PriceLike>)
    ensures CalculatePrice(Many([first] + rest)) == CalculatePrice(One(first))
  {
  }

  /** `calculatePrice` is idempotent: feeding its result back in returns it unchanged
      (in particular a bare amount is returned as itself). */
  lemma CalculatePriceIdempotent(arg: PriceArg)
    requires CalculatePrice(arg).Success?
    ensures CalculatePrice(One(CalculatePrice(arg).value)) == CalculatePrice(arg)
  {
  }

  /** `calculatePrice([{value: 5}, {value: 9}]) == 5`. */
  lemma CalculatePriceExample()
    ensures CalculatePrice(Many([PriceRecord(Some(5), map[]), PriceRecord(Some(9), map[])])) == Success(Amount(5))
  {
  }
}
