/**
 * The tax rate table: for each tax class, the ordered list of rates that
 * apply to it. Percentages and the compound flag arrive already decoded
 * (the source parses `rate.rate` with parseFloat and compares
 * `rate.compound` with 'yes').
 */
module TaxRates {

  /**
   * The key a rate is stored under in its class: an array index or an
   * integer-like rate id. Itemised attributes are named after it.
   */
  type RateKey = nat

  datatype TaxRate = TaxRate(key: RateKey, percent: real, compound: bool)

  /** Tax class name to that class's rates, in iteration order. */
  type RateTable = map<string, seq<TaxRate>>

  /** No rate is negative, as a configured tax table guarantees. */
  predicate NonNegative(rates: seq<TaxRate>) {
    forall i :: 0 <= i < |rates| ==> 0.0 <= rates[i].percent
  }

  /** Keys of a class are distinct, as the keys of a JavaScript object or array are. */
  predicate DistinctKeys(rates: seq<TaxRate>) {
    forall i, j :: 0 <= i < j < |rates| ==> rates[i].key != rates[j].key
  }

  function Keys(rates: seq<TaxRate>): set<RateKey> {
    set i | 0 <= i < |rates| :: rates[i].key
  }

  /** Sum of the percentages of the compound (or of the regular) rates. */
  function SumPercent(rates: seq<TaxRate>, compound: bool): (s: real)
    ensures NonNegative(rates) ==> 0.0 <= s
    ensures (forall i :: 0 <= i < |rates| ==> rates[i].compound != compound) ==> s == 0.0
  {
    if |rates| == 0 then 0.0
    else (if rates[0].compound == compound then rates[0].percent else 0.0) + SumPercent(rates[1..], compound)
  }

  /** R: the regular rates' percentages summed, as a fraction. */
  function RegularRate(rates: seq<TaxRate>): real {
    SumPercent(rates, false) / 100.0
  }

  /** C: the compound rates' percentages summed, as a fraction. */
  function CompoundRate(rates: seq<TaxRate>): real {
    SumPercent(rates, true) / 100.0
  }

  /** `1 + R`, the divisor of the regular rates' share. */
  function RegularMultiplier(rates: seq<TaxRate>): real {
    1.0 + RegularRate(rates)
  }

  /** `1 + C`, the divisor of the compound rates' share. */
  function CompoundMultiplier(rates: seq<TaxRate>): real {
    1.0 + CompoundRate(rates)
  }

  /**
   * Tax can be extracted from an inclusive price: neither multiplier is
   * zero. Dividing by a zero multiplier yields Infinity or NaN in the source.
   */
  predicate Extractable(rates: seq<TaxRate>) {
    RegularMultiplier(rates) != 0.0 && CompoundMultiplier(rates) != 0.0
  }

  /** Every class of the table admits tax extraction. */
  predicate ExtractableTable(table: RateTable) {
    forall c :: c in table ==> Extractable(table[c])
  }

  /** Non-negative rates never make a multiplier smaller than one. */
  lemma NonNegativeMultipliers(rates: seq<TaxRate>)
    requires NonNegative(rates)
    ensures 1.0 <= RegularMultiplier(rates) && 1.0 <= CompoundMultiplier(rates)
    ensures Extractable(rates)
  {
  }

  /** Percent sums split over concatenation. */
  lemma {:induction false} SumPercentAppend(a: seq<TaxRate>, b: seq<TaxRate>, compound: bool)
    ensures SumPercent(a + b, compound) == SumPercent(a, compound) + SumPercent(b, compound)
  {
    if |a| == 0 {
      assert a + b == b;
    } else {
      assert (a + b)[1..] == a[1..] + b;
      SumPercentAppend(a[1..], b, compound);
    }
  }
}
