/**
 * Properties of the line-item tax calculator: how compound rates combine,
 * the round trip between exclusive and inclusive pricing, the sign of the
 * amounts, the itemised attributes, and independence from the quantity.
 */
module LineTaxProperties {

  import opened Options
  import opened Rounding
  import opened TaxRates
  import opened LineTax

  /**
   * Exclusive pricing: a compound rate's tax does not depend on the other
   * compound rates of its class, so compound rates never stack.
   */
  lemma CompoundRatesDoNotStack(price: real, rates: seq<TaxRate>, extra: TaxRate, rate: TaxRate)
    requires extra.compound
    ensures ExclusiveRaw(price, rates + [extra], rate) == ExclusiveRaw(price, rates, rate)
  {
    SumPercentAppend(rates, [extra], false);
    assert SumPercent([extra], false) == 0.0;
  }

  /** Sum of the exclusive raw taxes of `sub`, each computed within its class `rates`. */
  function ExclusiveRawSum(price: real, rates: seq<TaxRate>, sub: seq<TaxRate>): real {
    if |sub| == 0 then 0.0 else ExclusiveRaw(price, rates, sub[0]) + ExclusiveRawSum(price, rates, sub[1..])
  }

  /** Raw taxes of `sub` when regular rates apply to `price` and compound rates to `base`. */
  function RawSum(price: real, base: real, sub: seq<TaxRate>): real {
    if |sub| == 0 then 0.0
    else (if sub[0].compound then base else price) * (sub[0].percent / 100.0) + RawSum(price, base, sub[1..])
  }

  /** The exclusive raw taxes apply the compound rates to the price plus the pre-compound total. */
  lemma {:induction false} ExclusiveRawSumBases(price: real, rates: seq<TaxRate>, sub: seq<TaxRate>)
    ensures ExclusiveRawSum(price, rates, sub) == RawSum(price, price + PreCompoundTotal(price, rates), sub)
  {
    if |sub| > 0 {
      ExclusiveRawSumBases(price, rates, sub[1..]);
      ExclusiveRawBase(price, rates, sub[0]);
    }
  }

  /** One exclusive raw tax: its percentage of the base its kind applies to. */
  lemma ExclusiveRawBase(price: real, rates: seq<TaxRate>, rate: TaxRate)
    ensures rate.compound ==>
              ExclusiveRaw(price, rates, rate) == (price + PreCompoundTotal(price, rates)) * (rate.percent / 100.0)
    ensures !rate.compound ==> ExclusiveRaw(price, rates, rate) == price * (rate.percent / 100.0)
  {
  }

  /** Summed raw taxes: the regular percentages of the price plus the compound ones of the base. */
  lemma {:induction false} RawSumClosedForm(price: real, base: real, sub: seq<TaxRate>)
    ensures RawSum(price, base, sub) == price * RegularRate(sub) + base * CompoundRate(sub)
  {
    if |sub| > 0 {
      RawSumClosedForm(price, base, sub[1..]);
      if sub[0].compound {
        assert RegularRate(sub) == RegularRate(sub[1..]);
        assert CompoundRate(sub) == sub[0].percent / 100.0 + CompoundRate(sub[1..]);
        assert base * CompoundRate(sub) == base * (sub[0].percent / 100.0) + base * CompoundRate(sub[1..]);
      } else {
        assert CompoundRate(sub) == CompoundRate(sub[1..]);
        assert RegularRate(sub) == sub[0].percent / 100.0 + RegularRate(sub[1..]);
        assert price * RegularRate(sub) == price * (sub[0].percent / 100.0) + price * RegularRate(sub[1..]);
      }
    } else {
      assert RegularRate(sub) == 0.0 && CompoundRate(sub) == 0.0;
    }
  }

  /** The tax-inclusive price of a tax-exclusive one: the price times both multipliers. */
  function GrossPrice(price: real, rates: seq<TaxRate>): real {
    price * RegularMultiplier(rates) * CompoundMultiplier(rates)
  }

  /** The gross price is the price plus every rate's unrounded exclusive tax. */
  lemma GrossPriceAddsExclusiveTaxes(price: real, rates: seq<TaxRate>)
    ensures GrossPrice(price, rates) == price + ExclusiveRawSum(price, rates, rates)
  {
    var base := price + PreCompoundTotal(price, rates);
    calc {
      GrossPrice(price, rates);
    == { GrossExpand(price, rates); }
      price * RegularMultiplier(rates) + price * RegularMultiplier(rates) * CompoundRate(rates);
    == { CompoundBase(price, rates); }
      price + price * RegularRate(rates) + base * CompoundRate(rates);
    == { RawSumClosedForm(price, base, rates); }
      price + RawSum(price, base, rates);
    == { ExclusiveRawSumBases(price, rates, rates); }
      price + ExclusiveRawSum(price, rates, rates);
    }
  }

  lemma GrossExpand(price: real, rates: seq<TaxRate>)
    ensures GrossPrice(price, rates)
            == price * RegularMultiplier(rates) + price * RegularMultiplier(rates) * CompoundRate(rates)
  {
  }

  /** Compound rates apply to the price times `1 + R`. */
  lemma CompoundBase(price: real, rates: seq<TaxRate>)
    ensures price + PreCompoundTotal(price, rates) == price * RegularMultiplier(rates)
    ensures (price + PreCompoundTotal(price, rates)) * CompoundRate(rates)
            == price * RegularMultiplier(rates) * CompoundRate(rates)
    ensures price * RegularMultiplier(rates) == price + price * RegularRate(rates)
  {
  }

  /** Removing both multipliers from `price * rm * cm` leaves a share of `price` itself. */
  lemma ShareOfGross(price: real, rm: real, cm: real, f: real, g: real)
    requires cm != 0.0 && rm != 0.0 && g == price * rm * cm
    ensures Share(g, f, cm) == price * rm * f
    ensures Share(g / cm, f, rm) == price * f
  {
    assert g / cm == price * rm;
  }

  /** One rate: extracting tax from the gross price recovers the exclusive raw tax. */
  lemma RawRoundTrip(price: real, rates: seq<TaxRate>, rate: TaxRate)
    requires Extractable(rates)
    ensures InclusiveRaw(GrossPrice(price, rates), rates, rate) == ExclusiveRaw(price, rates, rate)
  {
    ShareOfGross(price, RegularMultiplier(rates), CompoundMultiplier(rates), rate.percent / 100.0,
                 GrossPrice(price, rates));
  }

  /**
   * Round trip: adding the unrounded exclusive taxes to a price and then
   * extracting tax from the result gives the same itemisation and the same
   * total as taxing the price exclusively.
   */
  lemma ExclusiveInclusiveRoundTrip(price: real, rates: seq<TaxRate>, qty: Option<real>)
    requires Extractable(rates)
    ensures CalcInclusiveTax(GrossPrice(price, rates), rates, qty) == CalcExclusiveTax(price, rates, qty)
  {
    var g := GrossPrice(price, rates);
    var inc := seq(|rates|, i requires 0 <= i < |rates| => InclusiveRaw(g, rates, rates[i]));
    var exc := seq(|rates|, i requires 0 <= i < |rates| => ExclusiveRaw(price, rates, rates[i]));
    forall i | 0 <= i < |rates| ensures inc[i] == exc[i] {
      RawRoundTrip(price, rates, rates[i]);
    }
    assert inc == exc;
  }

  /** The gross price under a single regular rate `percent`. */
  lemma SingleRateGross(price: real, key: RateKey, percent: real)
    ensures GrossPrice(price, [TaxRate(key, percent, false)]) == price * (1.0 + percent / 100.0)
  {
    var rates := [TaxRate(key, percent, false)];
    assert SumPercent(rates, false) == percent;
    assert SumPercent(rates, true) == 0.0;
    UnitFactor(price, RegularMultiplier(rates), CompoundMultiplier(rates), 1.0 + percent / 100.0);
  }

  lemma UnitFactor(price: real, rm: real, cm: real, x: real)
    requires rm == x && cm == 1.0
    ensures price * rm * cm == price * x
  {
  }

  /**
   * A class with a single regular rate `percent`: the exclusive tax on a
   * price equals the inclusive tax on the price grossed up by the rate.
   */
  lemma SingleRateRoundTrip(price: real, key: RateKey, percent: real, qty: Option<real>)
    requires 1.0 + percent / 100.0 != 0.0
    ensures CalcInclusiveTax(price * (1.0 + percent / 100.0), [TaxRate(key, percent, false)], qty)
            == CalcExclusiveTax(price, [TaxRate(key, percent, false)], qty)
  {
    var rates := [TaxRate(key, percent, false)];
    assert SumPercent(rates, false) == percent;
    assert SumPercent(rates, true) == 0.0;
    SingleRateGross(price, key, percent);
    ExclusiveInclusiveRoundTrip(price, rates, qty);
  }

  /** A sum of non-negative item amounts is non-negative. */
  lemma {:induction false} ItemTotalNonNegative(rows: seq<RateTax>)
    requires forall i :: 0 <= i < |rows| ==> 0.0 <= rows[i].amounts.item
    ensures 0.0 <= ItemTotal(rows)
  {
    if |rows| > 0 {
      ItemTotalNonNegative(rows[1..]);
    }
  }

  lemma ExclusiveRawNonNegative(price: real, rates: seq<TaxRate>, rate: TaxRate)
    requires 0.0 <= price && NonNegative(rates) && 0.0 <= rate.percent
    ensures 0.0 <= ExclusiveRaw(price, rates, rate)
  {
    NonNegativeMultipliers(rates);
    ProductsNonNegative(price, RegularMultiplier(rates), rate.percent / 100.0);
  }

  lemma InclusiveRawNonNegative(price: real, rates: seq<TaxRate>, rate: TaxRate)
    requires 0.0 <= price && NonNegative(rates) && 0.0 <= rate.percent
    ensures Extractable(rates) && 0.0 <= InclusiveRaw(price, rates, rate)
  {
    NonNegativeMultipliers(rates);
    SharesNonNegative(price, rate.percent / 100.0, RegularMultiplier(rates), CompoundMultiplier(rates));
  }

  lemma ProductsNonNegative(a: real, b: real, c: real)
    requires 0.0 <= a && 0.0 <= b && 0.0 <= c
    ensures 0.0 <= a * c && 0.0 <= a * b * c
  {
  }

  lemma SharesNonNegative(price: real, f: real, rm: real, cm: real)
    requires 0.0 <= price && 0.0 <= f && 1.0 <= rm && 1.0 <= cm
    ensures 0.0 <= Share(price, f, cm) && 0.0 <= Share(price / cm, f, rm)
  {
    assert 0.0 <= price / cm;
  }

  lemma AmountsNonNegative(raw: real, qty: Option<real>)
    requires 0.0 <= raw && 0.0 <= Units(qty)
    ensures 0.0 <= Amounts(raw, qty).item && 0.0 <= Amounts(raw, qty).line
  {
    MulNonNegative(raw, Units(qty));
  }

  lemma MulNonNegative(a: real, b: real)
    requires 0.0 <= a && 0.0 <= b
    ensures 0.0 <= a * b
  {
  }

  /** Non-negative prices, rates and quantities give non-negative amounts in both branches. */
  lemma TaxNonNegative(price: real, qty: Option<real>, taxClass: string, taxable: bool,
                       settings: TaxSettings, table: RateTable)
    requires ExtractableTable(table)
    requires 0.0 <= price && 0.0 <= Units(qty)
    requires taxClass in table ==> NonNegative(table[taxClass])
    ensures 0.0 <= CalcTax(price, qty, taxClass, taxable, settings, table).tax
    ensures forall i :: 0 <= i < |CalcTax(price, qty, taxClass, taxable, settings, table).rows| ==>
              && 0.0 <= CalcTax(price, qty, taxClass, taxable, settings, table).rows[i].amounts.item
              && 0.0 <= CalcTax(price, qty, taxClass, taxable, settings, table).rows[i].amounts.line
  {
    var r := CalcTax(price, qty, taxClass, taxable, settings, table);
    if Applies(settings, table, taxClass, taxable) {
      var rates := table[taxClass];
      forall i | 0 <= i < |rates|
        ensures 0.0 <= r.rows[i].amounts.item && 0.0 <= r.rows[i].amounts.line
      {
        if settings.pricesIncludeTax {
          InclusiveRawNonNegative(price, rates, rates[i]);
          AmountsNonNegative(InclusiveRaw(price, rates, rates[i]), qty);
        } else {
          ExclusiveRawNonNegative(price, rates, rates[i]);
          AmountsNonNegative(ExclusiveRaw(price, rates, rates[i]), qty);
        }
      }
      ItemTotalNonNegative(r.rows);
    }
  }

  /**
   * With distinct rate keys, the itemised attributes hold exactly one entry
   * per rate of the class, namely that rate's amounts.
   */
  lemma ItemisedPerRate(price: real, qty: Option<real>, taxClass: string, taxable: bool,
                        settings: TaxSettings, table: RateTable)
    requires ExtractableTable(table)
    requires Applies(settings, table, taxClass, taxable) && DistinctKeys(table[taxClass])
    ensures CalcTax(price, qty, taxClass, taxable, settings, table).Items().Keys == Keys(table[taxClass])
    ensures forall i :: 0 <= i < |table[taxClass]| ==>
              CalcTax(price, qty, taxClass, taxable, settings, table).Items()[table[taxClass][i].key]
              == CalcTax(price, qty, taxClass, taxable, settings, table).rows[i].amounts
  {
    var rates := table[taxClass];
    var r := CalcTax(price, qty, taxClass, taxable, settings, table);
    assert Keys(rates) == set i | 0 <= i < |r.rows| :: r.rows[i].key by {
      forall k | k in Keys(rates) ensures k in set i | 0 <= i < |r.rows| :: r.rows[i].key {
        var i :| 0 <= i < |rates| && rates[i].key == k;
        assert r.rows[i].key == k;
      }
    }
    forall i | 0 <= i < |rates| ensures r.Items()[rates[i].key] == r.rows[i].amounts {
      assert LastWrite(r.rows, i);
      AttributesLastWriteWins(r.rows, i);
    }
  }

  /** Two itemisations with the same item amounts have the same total. */
  lemma {:induction false} ItemTotalOfItems(a: seq<RateTax>, b: seq<RateTax>)
    requires |a| == |b|
    requires forall i :: 0 <= i < |a| ==> a[i].amounts.item == b[i].amounts.item
    ensures ItemTotal(a) == ItemTotal(b)
  {
    if |a| > 0 {
      ItemTotalOfItems(a[1..], b[1..]);
    }
  }

  /**
   * The returned tax and the item amounts do not depend on the quantity;
   * only the line amounts do.
   */
  lemma TaxIndependentOfQuantity(price: real, q1: Option<real>, q2: Option<real>, taxClass: string,
                                 taxable: bool, settings: TaxSettings, table: RateTable)
    requires ExtractableTable(table)
    ensures CalcTax(price, q1, taxClass, taxable, settings, table).tax
            == CalcTax(price, q2, taxClass, taxable, settings, table).tax
    ensures |CalcTax(price, q1, taxClass, taxable, settings, table).rows|
            == |CalcTax(price, q2, taxClass, taxable, settings, table).rows|
    ensures forall i :: 0 <= i < |CalcTax(price, q1, taxClass, taxable, settings, table).rows| ==>
              CalcTax(price, q1, taxClass, taxable, settings, table).rows[i].amounts.item
              == CalcTax(price, q2, taxClass, taxable, settings, table).rows[i].amounts.item
  {
    var a := CalcTax(price, q1, taxClass, taxable, settings, table);
    var b := CalcTax(price, q2, taxClass, taxable, settings, table);
    ItemTotalOfItems(a.rows, b.rows);
  }

  /** A class without rates yields no tax and no itemisation, in both branches. */
  lemma EmptyRatesNoTax(price: real, qty: Option<real>)
    ensures Extractable([])
    ensures CalcExclusiveTax(price, [], qty).tax == 0.0 && CalcExclusiveTax(price, [], qty).rows == []
    ensures CalcInclusiveTax(price, [], qty).tax == 0.0 && CalcInclusiveTax(price, [], qty).rows == []
  {
    assert SumPercent([], false) == 0.0 && SumPercent([], true) == 0.0;
  }

  /**
   * Exclusive pricing, a 10% regular rate and a 5% compound rate on a price
   * of 100: the compound rate is charged on 110, so the taxes are 10 and
   * 5.5, and 15.5 in all.
   */
  lemma CompoundExample()
    ensures CalcExclusiveTax(100.0, [TaxRate(1, 10.0, false), TaxRate(2, 5.0, true)], Some(1.0)).rows
            == [RateTax(1, Itemised(10.0, 10.0)), RateTax(2, Itemised(5.5, 5.5))]
    ensures CalcExclusiveTax(100.0, [TaxRate(1, 10.0, false), TaxRate(2, 5.0, true)], Some(1.0)).tax == 15.5
  {
    var rates := [TaxRate(1, 10.0, false), TaxRate(2, 5.0, true)];
    var r := CalcExclusiveTax(100.0, rates, Some(1.0));
    assert SumPercent(rates, false) == 10.0;
    assert ExclusiveRaw(100.0, rates, rates[0]) == 10.0;
    assert ExclusiveRaw(100.0, rates, rates[1]) == 5.5;
    assert OnGrid(10.0) && OnGrid(5.5);
    assert r.rows[0].amounts == Itemised(10.0, 10.0);
    assert r.rows[1].amounts == Itemised(5.5, 5.5);
    assert r.rows[2..] == [];
    assert ItemTotal(r.rows[1..]) == 5.5 + ItemTotal(r.rows[2..]);
  }

  /** The same line priced inclusively at 115.5 yields the same amounts. */
  lemma CompoundExampleInclusive()
    ensures CalcInclusiveTax(115.5, [TaxRate(1, 10.0, false), TaxRate(2, 5.0, true)], Some(1.0))
            == CalcExclusiveTax(100.0, [TaxRate(1, 10.0, false), TaxRate(2, 5.0, true)], Some(1.0))
  {
    var rates := [TaxRate(1, 10.0, false), TaxRate(2, 5.0, true)];
    assert SumPercent(rates, false) == 10.0;
    assert SumPercent(rates, true) == 5.0;
    assert GrossPrice(100.0, rates) == 115.5;
    ExclusiveInclusiveRoundTrip(100.0, rates, Some(1.0));
  }
}
