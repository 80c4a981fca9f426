/** Approximate price from a buy quote, relative change against the previous
    run's price, and the spike test. Floating point is idealised as real
    arithmetic; what is modelled exactly is when a price or a change exists. */
module Prices {
  import opened Wrappers
  import opened JsValue

  /** Wei per native coin: `parseEther("1")`, and the scale of `formatUnits(_, 18)`. */
  const WEI_PER_MON: nat := 1_000_000_000_000_000_000

  /** `Number(formatUnits(tokensOut, 18))`, idealised. */
  function TokensPerMon(tokensOut: int): real {
    tokensOut as real / WEI_PER_MON as real
  }

  /** Lines 212-217: the tokens bought with one coin, `quote?.amount ?? 0n`, give
      the price `1 / tokensPerMon` when positive and no price otherwise. */
  function PriceOf(quoteAmount: Option<int>): (price: Option<real>)
    ensures price.Some? <==> quoteAmount.Some? && quoteAmount.value > 0
    ensures price.Some? ==> price.value > 0.0 && price.value * TokensPerMon(quoteAmount.value) == 1.0
  {
    var tokensOut := quoteAmount.GetOr(0);
    var tokensPerMon := TokensPerMon(tokensOut);
    if tokensPerMon > 0.0 then Some(1.0 / tokensPerMon) else None
  }

  /** `typeof prev === "number" && prev > 0` */
  function IsPositiveNumber(prev: Value): (b: bool)
    ensures !prev.Num? ==> !b
    ensures prev.Num? && prev.n.Finite? ==> (b <==> prev.n.x > 0.0)
    ensures prev.Num? && (prev.n.NaN? || prev.n.NegInf?) ==> !b
    ensures prev.Num? && prev.n.PosInf? ==> b
  {
    prev.Num? && ((prev.n.Finite? && prev.n.x > 0.0) || prev.n.PosInf?)
  }

  /** Lines 219-223: the percentage change from the previous price. It exists
      exactly when there is a current price and the previous one is a positive
      number; an infinite previous price gives NaN. */
  function DeltaPct(price: Option<real>, prev: Value): (d: Option<Number>)
    ensures d.Some? <==> price.Some? && IsPositiveNumber(prev)
    ensures d.Some? && prev.n.PosInf? ==> d.value.NaN?
    ensures d.Some? && prev.n.Finite? ==>
              d.value.Finite? && price.value == prev.n.x * (1.0 + d.value.x / 100.0)
  {
    if price.Some? && IsPositiveNumber(prev) then
      match prev.n
      case Finite(p) => Some(Finite((price.value - p) / p * 100.0))
      case _ => Some(NaN)
    else None
  }

  function Abs(x: real): real {
    if x < 0.0 then -x else x
  }

  /** Line 224: `Math.abs(deltaPct) >= SPIKE_PCT`. NaN compares false, and an
      infinite change reaches every finite threshold. */
  function IsSpike(d: Option<Number>, spikePct: real): (b: bool)
    ensures d.None? || d.value.NaN? ==> !b
    ensures d.Some? && (d.value.PosInf? || d.value.NegInf?) ==> b
    ensures d.Some? && d.value.Finite? ==> (b <==> d.value.x >= spikePct || -d.value.x >= spikePct)
  {
    d.Some? && (d.value.PosInf? || d.value.NegInf? || (d.value.Finite? && Abs(d.value.x) >= spikePct))
  }

  /** A spike is a move of at least `spikePct` percent of the previous price,
      in either direction, the threshold itself included. */
  lemma SpikeIffRelativeMove(price: real, prev: real, spikePct: real)
    requires prev > 0.0
    ensures (IsSpike(DeltaPct(Some(price), Num(Finite(prev))), spikePct)
             <==> Abs(price - prev) * 100.0 >= spikePct * prev)
  {
    var d := (price - prev) / prev * 100.0;
    assert d * prev == (price - prev) * 100.0;
    assert Abs(d) * prev == Abs(price - prev) * 100.0;
    if Abs(d) >= spikePct {
      assert Abs(d) * prev >= spikePct * prev;
    } else {
      assert Abs(d) * prev < spikePct * prev;
    }
  }
}
