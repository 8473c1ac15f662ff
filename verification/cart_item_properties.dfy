/**
 * Properties of the recomputed line item: which calculator call its
 * itemisation comes from, how shipping and fee lines are treated, what a
 * single unit looks like, and that `sum` does not depend on the order of
 * the names it is given.
 */
module CartItemProperties {

  import opened Options
  import opened Rounding
  import opened TaxRates
  import opened LineTax
  import opened CartItem

  /** The raw tax the calculator computes for one rate of the class, per the settings. */
  function RawFor(settings: TaxSettings, price: real, rates: seq<TaxRate>, rate: TaxRate): real
    requires Extractable(rates)
  {
    if settings.pricesIncludeTax then InclusiveRaw(price, rates, rate) else ExclusiveRaw(price, rates, rate)
  }

  /**
   * With distinct rate keys, every `item_tax_<key>`/`line_tax_<key>` pair
   * left on a recomputed line is the regular price's tax for one unit: the
   * unit-price call at the line's quantity is overwritten.
   */
  lemma ItemisedFromRegularPrice(item: LineItem, objects: RateObjects, settings: TaxSettings,
                                 table: RateTable, i: int)
    requires ExtractableTable(table) && Taxed(item.input, settings, table)
    requires DistinctKeys(table[item.input.taxClass]) && 0 <= i < |table[item.input.taxClass]|
    ensures var rates := table[item.input.taxClass];
            var r := Recompute(item, objects, settings, table);
            && r.item.itemised[rates[i].key] == Amounts(RawFor(settings, item.input.regularPrice, rates, rates[i]), None)
            && r.rates[rates[i].key].taxAmount == Round4(RawFor(settings, item.input.regularPrice, rates, rates[i]))
  {
    var rates := table[item.input.taxClass];
    var second := RegularPriceTax(item.input, settings, table);
    assert |second.rows| == |rates|;
    assert forall j :: 0 <= j < |rates| ==> second.rows[j].key == rates[j].key;
    assert second.rows[i].amounts == Amounts(RawFor(settings, item.input.regularPrice, rates, rates[i]), None);
    assert LastWrite(second.rows, i);
    AttributesLastWriteWins(second.rows, i);
    assert rates[i].key in Keys(rates);
  }

  /**
   * Neither the unit price nor the quantity reaches the itemisation or the
   * rate objects: only the totals depend on them.
   */
  lemma ItemisedIgnoresUnitPrice(item: LineItem, objects: RateObjects, settings: TaxSettings,
                                 table: RateTable, price: real, qty: real)
    requires ExtractableTable(table)
    ensures var other := item.(input := item.input.(itemPrice := price, qty := qty));
            && Recompute(other, objects, settings, table).item.itemised == Recompute(item, objects, settings, table).item.itemised
            && Recompute(other, objects, settings, table).rates == Recompute(item, objects, settings, table).rates
  {
    var other := item.(input := item.input.(itemPrice := price, qty := qty));
    assert RegularPriceTax(other.input, settings, table) == RegularPriceTax(item.input, settings, table);
    assert TouchedKeys(other.input, settings, table) == TouchedKeys(item.input, settings, table);
    var a := Recompute(other, objects, settings, table).rates;
    var b := Recompute(item, objects, settings, table).rates;
    assert a.Keys == b.Keys;
    forall k | k in a ensures a[k] == b[k] {
      if k !in TouchedKeys(item.input, settings, table) {
        assert a[k] == objects[k] == b[k];
      }
    }
  }

  /**
   * The subtotal tax of a line is computed from its regular price whatever
   * its type: turning a product line into a shipping or fee line changes
   * `item_subtotal` and `subtotal`, never `item_subtotal_tax` or
   * `subtotal_tax`.
   */
  lemma SubtotalTaxIgnoresLineType(input: LineInput, settings: TaxSettings, table: RateTable, lineType: LineType)
    requires ExtractableTable(table)
    ensures var other := input.(lineType := lineType);
            && Totals(other, settings, table).itemSubtotalTax == Totals(input, settings, table).itemSubtotalTax
            && Totals(other, settings, table).subtotalTax == Totals(input, settings, table).subtotalTax
            && Totals(other, settings, table).itemTax == Totals(input, settings, table).itemTax
            && Totals(other, settings, table).totalTax == Totals(input, settings, table).totalTax
            && Totals(other, settings, table).total == Totals(input, settings, table).total
  {
    var other := input.(lineType := lineType);
    assert RegularPriceTax(other, settings, table) == RegularPriceTax(input, settings, table);
    assert UnitPriceTax(other, settings, table) == UnitPriceTax(input, settings, table);
    SaveIgnoresLineType(input, settings.pricesIncludeTax, UnitPriceTax(input, settings, table).tax,
                        RegularPriceTax(input, settings, table).tax, lineType);
  }

  lemma SaveIgnoresLineType(input: LineInput, pricesIncludeTax: bool, itemTax: real, subtotalTax: real, lineType: LineType)
    ensures var a := Save(input.(lineType := lineType), pricesIncludeTax, itemTax, subtotalTax);
            var b := Save(input, pricesIncludeTax, itemTax, subtotalTax);
            a.itemSubtotalTax == b.itemSubtotalTax && a.subtotalTax == b.subtotalTax
            && a.itemTax == b.itemTax && a.totalTax == b.totalTax && a.total == b.total
  {
  }

  /** On a shipping or fee line the regular price only reaches the subtotal tax. */
  lemma ShippingSubtotalFromUnitPrice(input: LineInput, settings: TaxSettings, table: RateTable)
    requires ExtractableTable(table) && !input.lineType.Product?
    ensures Totals(input, settings, table).itemSubtotal
            == input.itemPrice - (if settings.pricesIncludeTax then Totals(input, settings, table).itemSubtotalTax else 0.0)
  {
  }

  /** Scaling an on-grid amount by one unit leaves it as it is. */
  lemma ScaledByOne(amount: real)
    requires OnGrid(amount)
    ensures Scaled(amount, 1.0) == amount
  {
    assert amount * 1.0 == amount;
  }

  /** For a single unit the line taxes equal the unit taxes. */
  lemma SingleUnitTotals(input: LineInput, settings: TaxSettings, table: RateTable)
    requires ExtractableTable(table) && input.qty == 1.0
    ensures Totals(input, settings, table).totalTax == Totals(input, settings, table).itemTax
    ensures Totals(input, settings, table).subtotalTax == Totals(input, settings, table).itemSubtotalTax
  {
    ScaledByOne(UnitPriceTax(input, settings, table).tax);
    ScaledByOne(RegularPriceTax(input, settings, table).tax);
  }

  /** Field sums split over concatenation. */
  lemma {:induction false} FieldTotalAppend(item: LineItem, a: seq<Field>, b: seq<Field>)
    requires AllPresent(item, a) && AllPresent(item, b)
    ensures AllPresent(item, a + b)
    ensures FieldTotal(item, a + b) == FieldTotal(item, a) + FieldTotal(item, b)
  {
    if |b| == 0 {
      assert a + b == a;
    } else {
      assert (a + b)[..|a + b| - 1] == a + b[..|b| - 1];
      FieldTotalAppend(item, a, b[..|b| - 1]);
    }
  }

  /** Naming the same attributes in another order names only attributes the line carries. */
  lemma PresentPermutation(item: LineItem, a: seq<Field>, b: seq<Field>)
    requires multiset(a) == multiset(b) && AllPresent(item, a)
    ensures AllPresent(item, b)
  {
    forall i | 0 <= i < |b| ensures Present(item, b[i]) {
      assert b[i] in multiset(a);
      var j :| 0 <= j < |a| && a[j] == b[i];
    }
  }

  /** Taking one name out of the middle takes its value out of the sum. */
  lemma FieldTotalRemove(item: LineItem, b: seq<Field>, j: int)
    requires AllPresent(item, b) && 0 <= j < |b|
    ensures AllPresent(item, b[..j] + b[j + 1..])
    ensures FieldTotal(item, b) == FieldTotal(item, b[..j] + b[j + 1..]) + FieldValue(item, b[j])
  {
    var before, after := b[..j], b[j + 1..];
    assert b == before + [b[j]] + after;
    assert AllPresent(item, before) && AllPresent(item, after) && AllPresent(item, [b[j]]);
    FieldTotalAppend(item, before, [b[j]]);
    FieldTotalAppend(item, before + [b[j]], after);
    FieldTotalAppend(item, before, after);
    assert FieldTotal(item, [b[j]]) == FieldValue(item, b[j]);
  }

  /** `sum` depends only on which attributes are named, not on their order. */
  lemma {:induction false} FieldTotalPermutation(item: LineItem, a: seq<Field>, b: seq<Field>)
    requires multiset(a) == multiset(b) && AllPresent(item, a)
    ensures AllPresent(item, b)
    ensures FieldTotal(item, a) == FieldTotal(item, b)
    decreases |a|
  {
    PresentPermutation(item, a, b);
    if |a| == 0 {
      assert |b| == |multiset(b)| == 0;
    } else {
      var x := a[|a| - 1];
      var rest := a[..|a| - 1];
      assert a == rest + [x];
      assert x in multiset(b);
      var j :| 0 <= j < |b| && b[j] == x;
      var others := b[..j] + b[j + 1..];
      assert b == b[..j] + [x] + b[j + 1..];
      assert multiset(others) == multiset(b) - multiset{x};
      assert multiset(rest) == multiset(a) - multiset{x};
      assert AllPresent(item, rest);
      FieldTotalRemove(item, b, j);
      FieldTotalPermutation(item, rest, others);
    }
  }

  /** The `item_tax_<key>` attribute names of a class's rates, in rate order. */
  function ItemTaxNames(rates: seq<TaxRate>): (names: seq<Field>)
    ensures |names| == |rates|
    ensures forall i :: 0 <= i < |rates| ==> names[i] == ItemTaxOf(rates[i].key)
  {
    seq(|rates|, i requires 0 <= i < |rates| => ItemTaxOf(rates[i].key))
  }

  /** Summing the `item_tax_<key>` attributes that hold the rows' item amounts gives the rows' item total. */
  lemma {:induction false} ItemTaxSum(item: LineItem, rates: seq<TaxRate>, rows: seq<RateTax>)
    requires |rows| == |rates|
    requires forall i :: 0 <= i < |rows| ==> rows[i].key == rates[i].key
    requires forall i :: 0 <= i < |rows| ==>
               rows[i].key in item.itemised && item.itemised[rows[i].key].item == rows[i].amounts.item
    ensures AllPresent(item, ItemTaxNames(rates))
    ensures FieldTotal(item, ItemTaxNames(rates)) == ItemTotal(rows)
  {
    if |rows| == 0 {
      assert ItemTaxNames(rates) == [];
    } else {
      var head := [ItemTaxOf(rates[0].key)];
      assert ItemTaxNames(rates) == head + ItemTaxNames(rates[1..]);
      ItemTaxSum(item, rates[1..], rows[1..]);
      assert AllPresent(item, head);
      FieldTotalAppend(item, head, ItemTaxNames(rates[1..]));
      assert head[..0] == [];
      assert FieldTotal(item, head) == rows[0].amounts.item;
    }
  }

  /**
   * On a recomputed line whose class has distinct rate keys, `sum` over the
   * `item_tax_<key>` attributes of the class's rates gives back
   * `item_subtotal_tax`: both come from the regular-price call.
   */
  lemma ItemisedTaxesSumToSubtotalTax(item: LineItem, objects: RateObjects, settings: TaxSettings, table: RateTable)
    requires ExtractableTable(table) && Taxed(item.input, settings, table)
    requires DistinctKeys(table[item.input.taxClass])
    ensures var r := Recompute(item, objects, settings, table).item;
            && AllPresent(r, ItemTaxNames(table[item.input.taxClass]))
            && FieldTotal(r, ItemTaxNames(table[item.input.taxClass])) == r.totals.itemSubtotalTax
  {
    var rates := table[item.input.taxClass];
    var r := Recompute(item, objects, settings, table).item;
    var second := RegularPriceTax(item.input, settings, table);
    assert |second.rows| == |rates|;
    assert forall j :: 0 <= j < |rates| ==> second.rows[j].key == rates[j].key;
    forall i | 0 <= i < |second.rows|
      ensures second.rows[i].key in r.itemised && r.itemised[second.rows[i].key].item == second.rows[i].amounts.item
    {
      assert LastWrite(second.rows, i);
      AttributesLastWriteWins(second.rows, i);
    }
    ItemTaxSum(r, rates, second.rows);
  }

  /**
   * When no tax applies to a line (it was made non-taxable, or its class
   * has no rates), recomputing it writes no itemised attribute and no rate
   * object: whatever an earlier taxed recomputation left there stays.
   */
  lemma UntaxedLineKeepsItemisation(item: LineItem, objects: RateObjects, settings: TaxSettings, table: RateTable)
    requires ExtractableTable(table) && !Taxed(item.input, settings, table)
    ensures Recompute(item, objects, settings, table).item.itemised == item.itemised
    ensures Recompute(item, objects, settings, table).rates == objects
    ensures Recompute(item, objects, settings, table).item.totals.itemSubtotalTax == 0.0
  {
    assert RegularPriceTax(item.input, settings, table).rows == [];
    assert Attributes([]) == map[];
    var written := Recompute(item, objects, settings, table).rates;
    assert written.Keys == objects.Keys;
    forall k | k in written ensures written[k] == objects[k] {
    }
  }

  /** A taxed line made non-taxable keeps the `item_tax_<key>` it had, while its saved taxes drop to zero. */
  lemma StaleItemisationExample()
    ensures var table := map["" := [TaxRate(0, 10.0, false)]];
            var settings := TaxSettings(true, false);
            var taxed := LineItem(LineInput(1.0, 100.0, 100.0, Product, true, ""),
                                  LineTotals(0.0, 0.0, 0.0, 0.0, 0.0, 0.0, 0.0), map[]);
            var first := Recompute(taxed, map[], settings, table);
            var untaxed := first.item.(input := first.item.input.(taxable := false));
            var second := Recompute(untaxed, first.rates, settings, table);
            && 0 in second.item.itemised && second.item.itemised[0].item == 10.0
            && second.rates == first.rates
            && second.item.totals.itemSubtotalTax == 0.0
  {
    var table := map["" := [TaxRate(0, 10.0, false)]];
    var settings := TaxSettings(true, false);
    var taxed := LineItem(LineInput(1.0, 100.0, 100.0, Product, true, ""),
                          LineTotals(0.0, 0.0, 0.0, 0.0, 0.0, 0.0, 0.0), map[]);
    var first := Recompute(taxed, map[], settings, table);
    ItemisedFromRegularPrice(taxed, map[], settings, table, 0);
    TenPercentOfHundred(None);
    assert RawFor(settings, 100.0, table[""], table[""][0]) == 10.0;
    assert Round4(10.0) == 10.0 by { assert OnGrid(10.0); }
    var untaxed := first.item.(input := first.item.input.(taxable := false));
    UntaxedLineKeepsItemisation(untaxed, first.rates, settings, table);
  }

  /** An untaxed shipping line of 20.00 bought three times. */
  lemma ShippingExample(settings: TaxSettings, table: RateTable)
    requires ExtractableTable(table)
    ensures var input := LineInput(3.0, 20.0, 0.0, Shipping, false, "");
            var t := Totals(input, settings, table);
            && t.itemSubtotal == 20.0 && t.subtotal == 60.0 && t.total == 60.0
            && t.itemTax == 0.0 && t.totalTax == 0.0 && t.subtotalTax == 0.0
  {
    var input := LineInput(3.0, 20.0, 0.0, Shipping, false, "");
    assert !Taxed(input, settings, table);
    assert OnGrid(60.0);
    assert Scaled(20.0, 3.0) == 60.0;
  }

  /** 10% of 100.00 is 10.00 per unit, whichever quantity the call is given. */
  lemma TenPercentOfHundred(qty: Option<real>)
    requires qty == None || qty == Some(2.0)
    ensures CalcTax(100.0, qty, "", true, TaxSettings(true, false), map["" := [TaxRate(0, 10.0, false)]]).tax == 10.0
  {
    var rates := [TaxRate(0, 10.0, false)];
    var r := CalcTax(100.0, qty, "", true, TaxSettings(true, false), map["" := rates]);
    assert ExclusiveRaw(100.0, rates, rates[0]) == 10.0;
    assert OnGrid(10.0) && OnGrid(20.0);
    assert r.rows[0].amounts.item == 10.0;
    assert r.rows[1..] == [];
    assert ItemTotal(r.rows[1..]) == 0.0;
  }

  /**
   * A product at 100.00 with a 10% rate, two units, prices exclusive of
   * tax: 10.00 tax per unit, 20.00 for the line.
   */
  lemma ProductExample()
    ensures var table := map["" := [TaxRate(0, 10.0, false)]];
            var input := LineInput(2.0, 100.0, 100.0, Product, true, "");
            var t := Totals(input, TaxSettings(true, false), table);
            && t.itemTax == 10.0 && t.totalTax == 20.0 && t.total == 200.0
            && t.itemSubtotal == 100.0 && t.itemSubtotalTax == 10.0 && t.subtotal == 200.0 && t.subtotalTax == 20.0
  {
    TenPercentOfHundred(None);
    TenPercentOfHundred(Some(2.0));
    assert OnGrid(20.0) && OnGrid(200.0);
    assert Scaled(10.0, 2.0) == 20.0;
    assert Scaled(100.0, 2.0) == 200.0;
  }
}
