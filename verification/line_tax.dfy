/**
 * The line-item tax calculator of the cart entity: `calcTax` and its two
 * branches `calcExclusiveTax` and `calcInclusiveTax`, which follow
 * WooCommerce's `calc_tax`, `calc_exclusive_tax` and `calc_inclusive_tax`.
 *
 * Every rate yields an unrounded raw tax. Its item amount is that raw value
 * rounded to four digits, its line amount is the raw value times the
 * quantity rounded to four digits, and the returned tax is the rounded sum
 * of the item amounts.
 */
module LineTax {

  import opened Options
  import opened Rounding
  import opened TaxRates

  /** The two tax options: `calc_taxes` and `prices_include_tax`. */
  datatype TaxSettings = TaxSettings(calcTaxes: bool, pricesIncludeTax: bool)

  /** The amounts written as `item_tax_<key>` and `line_tax_<key>`. */
  datatype Itemised = Itemised(item: real, line: real)

  /** One rate's itemised amounts, in rate order. */
  datatype RateTax = RateTax(key: RateKey, amounts: Itemised)

  /**
   * What one tax calculation produces: the returned tax, the itemisation
   * in rate order, and whether the quantity was omitted (the call that
   * also sets each rate's `subtotal_tax`).
   */
  datatype TaxResult = TaxResult(tax: real, rows: seq<RateTax>, subtotal: bool) {

    /** The itemised attributes as they end up on the line item. */
    function Items(): map<RateKey, Itemised> {
      Attributes(rows)
    }
  }

  /**
   * Writes the rows one after the other into a map: a later write to the
   * same key replaces an earlier one (see `AttributesLastWriteWins`).
   */
  function Attributes(rows: seq<RateTax>): (m: map<RateKey, Itemised>)
    ensures m.Keys == RowKeys(rows)
  {
    if |rows| == 0 then map[]
    else
      var prefix := rows[..|rows| - 1];
      var last := rows[|rows| - 1];
      assert forall i :: 0 <= i < |prefix| ==> prefix[i] == rows[i];
      assert rows == prefix + [last];
      Attributes(prefix)[last.key := last.amounts]
  }

  /** The keys the rows are written under. */
  function RowKeys(rows: seq<RateTax>): set<RateKey> {
    set i | 0 <= i < |rows| :: rows[i].key
  }

  /** Rows written under the rates' own keys, one per rate, cover exactly the rates' keys. */
  lemma RowKeysOfRates(rows: seq<RateTax>, rates: seq<TaxRate>)
    requires |rows| == |rates|
    requires forall i :: 0 <= i < |rates| ==> rows[i].key == rates[i].key
    ensures RowKeys(rows) == Keys(rates)
  {
    forall k | k in Keys(rates) ensures k in RowKeys(rows) {
      var i :| 0 <= i < |rates| && rates[i].key == k;
      assert rows[i].key == k;
    }
  }

  /** A row that no later row overwrites is what the map holds for its key. */
  predicate LastWrite(rows: seq<RateTax>, i: int)
    requires 0 <= i < |rows|
  {
    forall j :: i < j < |rows| ==> rows[j].key != rows[i].key
  }

  /** Last write wins: the map holds, for each key, the last row written under it. */
  lemma {:induction false} AttributesLastWriteWins(rows: seq<RateTax>, i: int)
    requires 0 <= i < |rows| && LastWrite(rows, i)
    ensures rows[i].key in Attributes(rows)
    ensures Attributes(rows)[rows[i].key] == rows[i].amounts
  {
    var prefix := rows[..|rows| - 1];
    if i < |rows| - 1 {
      assert prefix[i] == rows[i];
      assert LastWrite(prefix, i) by {
        forall j | i < j < |prefix| ensures prefix[j].key != prefix[i].key {
          assert prefix[j] == rows[j];
        }
      }
      AttributesLastWriteWins(prefix, i);
      assert rows[|rows| - 1].key != rows[i].key;
    }
  }

  /** Sum of the rounded item amounts, in rate order. */
  function ItemTotal(rows: seq<RateTax>): real {
    if |rows| == 0 then 0.0 else rows[0].amounts.item + ItemTotal(rows[1..])
  }

  /** A sum of on-grid item amounts is on the grid. */
  lemma {:induction false} ItemTotalOnGrid(rows: seq<RateTax>)
    requires forall i :: 0 <= i < |rows| ==> OnGrid(rows[i].amounts.item)
    ensures OnGrid(ItemTotal(rows))
  {
    if |rows| == 0 {
      assert 0.0 * Scale == 0 as real;
    } else {
      ItemTotalOnGrid(rows[1..]);
      OnGridAdd(rows[0].amounts.item, ItemTotal(rows[1..]));
    }
  }

  /** The quantity used for line amounts: an omitted quantity counts as one. */
  function Units(qty: Option<real>): real {
    if qty.Some? then qty.value else 1.0
  }

  /**
   * The rounding rule of both branches: the item amount and the line amount
   * are each rounded from the unrounded raw tax.
   */
  function Amounts(raw: real, qty: Option<real>): Itemised {
    Itemised(Round4(raw), Round4(raw * Units(qty)))
  }

  /**
   * The common tail of both branches: itemise every rate and sum the
   * rounded item amounts.
   */
  function Itemise(rates: seq<TaxRate>, raws: seq<real>, qty: Option<real>): (r: TaxResult)
    requires |raws| == |rates|
    ensures |r.rows| == |rates|
    ensures forall i :: 0 <= i < |rates| ==> r.rows[i] == RateTax(rates[i].key, Amounts(raws[i], qty))
    ensures r.tax == ItemTotal(r.rows) && OnGrid(r.tax)
    ensures r.subtotal <==> qty.None?
  {
    var rows := seq(|rates|, i requires 0 <= i < |rates| => RateTax(rates[i].key, Amounts(raws[i], qty)));
    ItemTotalOnGrid(rows);
    TaxResult(Round4(ItemTotal(rows)), rows, qty.None?)
  }

  /** Exclusive pricing: the sum of the non-compound rates' raw taxes. */
  function PreCompoundTotal(price: real, rates: seq<TaxRate>): (t: real)
    ensures t == price * RegularRate(rates)
  {
    if |rates| == 0 then 0.0
    else (if rates[0].compound then 0.0 else price * (rates[0].percent / 100.0)) + PreCompoundTotal(price, rates[1..])
  }

  /**
   * Exclusive pricing, one rate: a compound rate applies to the price plus
   * all non-compound taxes of the class, a regular rate to the price.
   */
  function ExclusiveRaw(price: real, rates: seq<TaxRate>, rate: TaxRate): (t: real)
    ensures rate.compound ==> t == price * RegularMultiplier(rates) * (rate.percent / 100.0)
    ensures !rate.compound ==> t == price * (rate.percent / 100.0)
  {
    if rate.compound then (price + PreCompoundTotal(price, rates)) * (rate.percent / 100.0)
    else price * (rate.percent / 100.0)
  }

  /**
   * Inclusive pricing, one rate: the tax is recovered as the difference
   * between the price and a net price. It equals the rate's share of the
   * price with compound tax removed (regular rate) or of the whole price
   * (compound rate).
   */
  function InclusiveRaw(price: real, rates: seq<TaxRate>, rate: TaxRate): (t: real)
    requires Extractable(rates)
    ensures rate.compound ==> t == Share(price, rate.percent / 100.0, CompoundMultiplier(rates))
    ensures !rate.compound ==>
              t == Share(price / CompoundMultiplier(rates), rate.percent / 100.0, RegularMultiplier(rates))
  {
    Extract(price, rate.percent / 100.0, CompoundMultiplier(rates), RegularMultiplier(rates), rate.compound)
  }

  /** The part `base * f / d` of a base that carries tax at fraction `f` under divisor `d`. */
  function Share(base: real, f: real, d: real): real
    requires d != 0.0
  {
    base * f / d
  }

  /**
   * Lines 139-155 of the source for one rate with fraction `f`, compound
   * multiplier `cm` and regular multiplier `rm`.
   */
  function Extract(price: real, f: real, cm: real, rm: real, compound: bool): (t: real)
    requires cm != 0.0 && rm != 0.0
    ensures compound ==> t == Share(price, f, cm)
    ensures !compound ==> t == Share(price / cm, f, rm)
  {
    var nonCompoundPrice := price / cm;
    var theRate := if compound then f / cm else f / rm;
    var thePrice := if compound then price else nonCompoundPrice;
    var netPrice := price - theRate * thePrice;
    if compound then
      ShareOf(price, price, f, cm);
      price - netPrice
    else
      ShareOf(price, nonCompoundPrice, f, rm);
      price - netPrice
  }

  /** The difference `price - net price` is the share of the base. */
  lemma ShareOf(price: real, base: real, f: real, d: real)
    requires d != 0.0
    ensures price - (price - f / d * base) == Share(base, f, d)
  {
  }

  /** `calcExclusiveTax`: tax added on top of a tax-exclusive price. */
  function CalcExclusiveTax(price: real, rates: seq<TaxRate>, qty: Option<real>): (r: TaxResult)
    ensures |r.rows| == |rates|
    ensures forall i :: 0 <= i < |rates| ==>
              && r.rows[i].key == rates[i].key
              && r.rows[i].amounts == Amounts(ExclusiveRaw(price, rates, rates[i]), qty)
    ensures r.tax == ItemTotal(r.rows) && OnGrid(r.tax)
    ensures r.subtotal <==> qty.None?
  {
    var raws := seq(|rates|, i requires 0 <= i < |rates| => ExclusiveRaw(price, rates, rates[i]));
    Itemise(rates, raws, qty)
  }

  /** `calcInclusiveTax`: tax extracted from a tax-inclusive price. */
  function CalcInclusiveTax(price: real, rates: seq<TaxRate>, qty: Option<real>): (r: TaxResult)
    requires Extractable(rates)
    ensures |r.rows| == |rates|
    ensures forall i :: 0 <= i < |rates| ==>
              && r.rows[i].key == rates[i].key
              && r.rows[i].amounts == Amounts(InclusiveRaw(price, rates, rates[i]), qty)
    ensures r.tax == ItemTotal(r.rows) && OnGrid(r.tax)
    ensures r.subtotal <==> qty.None?
  {
    var raws := seq(|rates|, i requires 0 <= i < |rates| => InclusiveRaw(price, rates, rates[i]));
    Itemise(rates, raws, qty)
  }

  /** Tax applies: taxes are on, the item is taxable and its class has a rate list. */
  predicate Applies(settings: TaxSettings, table: RateTable, taxClass: string, taxable: bool) {
    settings.calcTaxes && taxable && taxClass in table
  }

  /** `calcTax`: zero and no itemisation unless tax applies, else the branch the settings select. */
  function CalcTax(price: real, qty: Option<real>, taxClass: string, taxable: bool,
                   settings: TaxSettings, table: RateTable): (r: TaxResult)
    requires ExtractableTable(table)
    ensures !Applies(settings, table, taxClass, taxable) ==> r.tax == 0.0 && r.rows == []
    ensures Applies(settings, table, taxClass, taxable) && settings.pricesIncludeTax ==>
              r == CalcInclusiveTax(price, table[taxClass], qty)
    ensures Applies(settings, table, taxClass, taxable) && !settings.pricesIncludeTax ==>
              r == CalcExclusiveTax(price, table[taxClass], qty)
    ensures r.tax == ItemTotal(r.rows) && OnGrid(r.tax)
    ensures r.subtotal <==> qty.None?
    ensures Applies(settings, table, taxClass, taxable) ==> RowKeys(r.rows) == Keys(table[taxClass])
    ensures qty.None? ==> forall i :: 0 <= i < |r.rows| ==> r.rows[i].amounts.line == r.rows[i].amounts.item
  {
    if Applies(settings, table, taxClass, taxable) then
      var r := if settings.pricesIncludeTax then CalcInclusiveTax(price, table[taxClass], qty)
               else CalcExclusiveTax(price, table[taxClass], qty);
      RowKeysOfRates(r.rows, table[taxClass]);
      r
    else
      assert 0.0 * Scale == 0 as real;
      TaxResult(0.0, [], qty.None?)
  }
}
