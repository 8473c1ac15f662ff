/**
 * A cart line item and `updateLineTotals`: the recomputation that runs
 * whenever the quantity, a price, the taxable flag or the tax class of the
 * line changes. It calls the tax calculator twice, once for the unit price
 * at the line's quantity and once for the regular price with the quantity
 * omitted, and stores seven totals. The calculator's side effects land in
 * two places: the itemised `item_tax_<key>`/`line_tax_<key>` attributes on
 * the line, and the `tax_amount`/`subtotal_tax` fields of the rate objects
 * of the line's tax class, which every line of that class shares.
 */
module CartItem {

  import opened Options
  import opened Rounding
  import opened TaxRates
  import opened LineTax

  /** The `type` attribute: shipping and fee lines have no separate regular price. */
  datatype LineType = Product | Shipping | Fee

  /** The attributes a recomputation reads. */
  datatype LineInput = LineInput(
    qty: real,
    itemPrice: real,
    regularPrice: real,
    lineType: LineType,
    taxable: bool,
    taxClass: string)

  /** The seven attributes a recomputation saves. */
  datatype LineTotals = LineTotals(
    itemSubtotal: real,
    itemSubtotalTax: real,
    itemTax: real,
    subtotal: real,
    subtotalTax: real,
    totalTax: real,
    total: real)

  /** The nested fields the calculator writes onto one shared rate object. */
  datatype RateFields = RateFields(taxAmount: real, subtotalTax: Option<real>)

  /** The rate objects of one tax class, by rate key. */
  type RateObjects = map<RateKey, RateFields>

  /** A line item: its inputs, its saved totals and its itemised tax attributes. */
  datatype LineItem = LineItem(input: LineInput, totals: LineTotals, itemised: map<RateKey, Itemised>)

  /** A recomputed line together with the rate objects as the recomputation leaves them. */
  datatype Recomputed = Recomputed(item: LineItem, rates: RateObjects)

  /** The first calculator call: the unit price at the line's quantity. */
  function UnitPriceTax(input: LineInput, settings: TaxSettings, table: RateTable): TaxResult
    requires ExtractableTable(table)
  {
    CalcTax(input.itemPrice, Some(input.qty), input.taxClass, input.taxable, settings, table)
  }

  /** The second calculator call: the regular price with the quantity omitted. */
  function RegularPriceTax(input: LineInput, settings: TaxSettings, table: RateTable): TaxResult
    requires ExtractableTable(table)
  {
    CalcTax(input.regularPrice, None, input.taxClass, input.taxable, settings, table)
  }

  /** Whether tax applies to the line at all. */
  predicate Taxed(input: LineInput, settings: TaxSettings, table: RateTable) {
    Applies(settings, table, input.taxClass, input.taxable)
  }

  /** The rate keys the calculator writes under: those of the line's class, if tax applies. */
  function TouchedKeys(input: LineInput, settings: TaxSettings, table: RateTable): set<RateKey> {
    if Taxed(input, settings, table) then Keys(table[input.taxClass]) else {}
  }

  /** A per-unit amount scaled by the quantity and rounded, as every line total is. */
  function Scaled(amount: real, qty: real): (r: real)
    ensures OnGrid(r)
  {
    Round4(amount * qty)
  }

  /**
   * Lines 66-84 of `updateLineTotals`, given the two calculated taxes:
   * shipping and fee lines take their subtotal from the unit price, and
   * when prices include tax each price has its own tax taken out.
   */
  function Save(input: LineInput, pricesIncludeTax: bool, itemTax: real, subtotalTax: real): (t: LineTotals)
    ensures t.itemSubtotalTax == subtotalTax && t.itemTax == Round4(itemTax)
    ensures input.lineType.Product? && !pricesIncludeTax ==> t.itemSubtotal == input.regularPrice
    ensures !input.lineType.Product? && !pricesIncludeTax ==> t.itemSubtotal == input.itemPrice
    ensures input.lineType.Product? && pricesIncludeTax ==> t.itemSubtotal == input.regularPrice - subtotalTax
    ensures !input.lineType.Product? && pricesIncludeTax ==> t.itemSubtotal == input.itemPrice - subtotalTax
    ensures t.subtotal == Scaled(t.itemSubtotal, input.qty)
    ensures t.subtotalTax == Scaled(subtotalTax, input.qty) && t.totalTax == Scaled(itemTax, input.qty)
    ensures pricesIncludeTax ==> t.total == Scaled(input.itemPrice - itemTax, input.qty)
    ensures !pricesIncludeTax ==> t.total == Scaled(input.itemPrice, input.qty)
  {
    var regular := if input.lineType.Shipping? || input.lineType.Fee? then input.itemPrice else input.regularPrice;
    var regularNet := if pricesIncludeTax then regular - subtotalTax else regular;
    var itemNet := if pricesIncludeTax then input.itemPrice - itemTax else input.itemPrice;
    LineTotals(
      regularNet,
      subtotalTax,
      Round4(itemTax),
      Scaled(regularNet, input.qty),
      Scaled(subtotalTax, input.qty),
      Scaled(itemTax, input.qty),
      Scaled(itemNet, input.qty))
  }

  /**
   * The saved totals. They depend on the line's inputs only, never on what
   * an earlier recomputation saved.
   */
  function Totals(input: LineInput, settings: TaxSettings, table: RateTable): (t: LineTotals)
    requires ExtractableTable(table)
    ensures t == Save(input, settings.pricesIncludeTax, UnitPriceTax(input, settings, table).tax,
                      RegularPriceTax(input, settings, table).tax)
    // the item tax is the unit price's tax for one unit, already on the grid
    ensures t.itemTax == UnitPriceTax(input, settings, table).tax
    ensures OnGrid(t.itemSubtotalTax) && OnGrid(t.itemTax)
    // a line that no tax applies to carries none, and its totals are its prices
    ensures !Taxed(input, settings, table) ==>
              && t.itemSubtotalTax == 0.0 && t.itemTax == 0.0 && t.subtotalTax == 0.0 && t.totalTax == 0.0
              && t.total == Scaled(input.itemPrice, input.qty)
  {
    var itemTax := UnitPriceTax(input, settings, table).tax;
    var subtotalTax := RegularPriceTax(input, settings, table).tax;
    if !Taxed(input, settings, table) then
      ZeroScaled(input.qty);
      Save(input, settings.pricesIncludeTax, itemTax, subtotalTax)
    else
      Save(input, settings.pricesIncludeTax, itemTax, subtotalTax)
  }

  /** No tax scales to no tax. */
  lemma ZeroScaled(qty: real)
    ensures Scaled(0.0, qty) == 0.0
  {
    assert 0.0 * qty == 0.0;
    assert 0.0 * Scale == 0 as real;
  }

  /**
   * Prices that include tax are split into a total and a total tax that add
   * back up to the price paid, up to one grid step of rounding.
   */
  lemma InclusiveTotalsSplit(input: LineInput, settings: TaxSettings, table: RateTable)
    requires ExtractableTable(table) && settings.pricesIncludeTax
    ensures input.itemPrice * input.qty - 2.0 * HalfStep
            <= Totals(input, settings, table).total + Totals(input, settings, table).totalTax
            <= input.itemPrice * input.qty + 2.0 * HalfStep
  {
    SaveSplit(input, UnitPriceTax(input, settings, table).tax, RegularPriceTax(input, settings, table).tax);
  }

  /** The split for any calculated taxes. */
  lemma SaveSplit(input: LineInput, itemTax: real, subtotalTax: real)
    ensures input.itemPrice * input.qty - 2.0 * HalfStep
            <= Save(input, true, itemTax, subtotalTax).total + Save(input, true, itemTax, subtotalTax).totalTax
            <= input.itemPrice * input.qty + 2.0 * HalfStep
  {
    ScaledSplit(input.itemPrice, itemTax, input.qty);
  }

  /** Prices that exclude tax are the totals themselves, scaled and rounded. */
  lemma ExclusiveTotals(input: LineInput, settings: TaxSettings, table: RateTable)
    requires ExtractableTable(table) && !settings.pricesIncludeTax
    ensures Totals(input, settings, table).total == Scaled(input.itemPrice, input.qty)
    ensures Totals(input, settings, table).subtotal
            == Scaled(if input.lineType.Product? then input.regularPrice else input.itemPrice, input.qty)
  {
  }

  /** Rounding the scaled net price and the scaled tax separately loses at most one grid step. */
  lemma ScaledSplit(price: real, tax: real, qty: real)
    ensures price * qty - 2.0 * HalfStep <= Scaled(price - tax, qty) + Scaled(tax, qty) <= price * qty + 2.0 * HalfStep
  {
    assert (price - tax) * qty + tax * qty == price * qty;
  }

  /** The previous `subtotal_tax` of a rate object, if it has one. */
  function PreviousSubtotalTax(objects: RateObjects, key: RateKey): Option<real> {
    if key in objects then objects[key].subtotalTax else None
  }

  /**
   * The calculator's writes to the rate objects, rate by rate: `tax_amount`
   * becomes the line amount, and `subtotal_tax` the item amount when the
   * quantity was omitted.
   */
  function WriteRows(objects: RateObjects, rows: seq<RateTax>, subtotal: bool): (m: RateObjects)
    ensures m.Keys == objects.Keys + RowKeys(rows)
    ensures forall k :: k in objects && k !in RowKeys(rows) ==> m[k] == objects[k]
  {
    if |rows| == 0 then objects
    else
      var prefix := rows[..|rows| - 1];
      var last := rows[|rows| - 1];
      assert forall i :: 0 <= i < |prefix| ==> prefix[i] == rows[i];
      assert RowKeys(rows) == RowKeys(prefix) + {last.key};
      var before := WriteRows(objects, prefix, subtotal);
      var subtotalTax := if subtotal then Some(last.amounts.item) else PreviousSubtotalTax(before, last.key);
      before[last.key := RateFields(last.amounts.line, subtotalTax)]
  }

  /** The rate objects as a subtotal call with itemisation `items` leaves the touched ones. */
  function SubtotalFields(items: map<RateKey, Itemised>): RateObjects {
    map k | k in items :: RateFields(items[k].line, Some(items[k].item))
  }

  /**
   * A subtotal call overwrites both fields of every rate it visits, so what
   * it leaves behind depends only on its own itemisation.
   */
  lemma {:induction false} SubtotalWriteOverrides(objects: RateObjects, rows: seq<RateTax>)
    ensures WriteRows(objects, rows, true) == objects + SubtotalFields(Attributes(rows))
  {
    if |rows| > 0 {
      var prefix := rows[..|rows| - 1];
      var last := rows[|rows| - 1];
      assert forall i :: 0 <= i < |prefix| ==> prefix[i] == rows[i];
      SubtotalWriteOverrides(objects, prefix);
      var lhs := WriteRows(objects, rows, true);
      var rhs := objects + SubtotalFields(Attributes(rows));
      assert lhs.Keys == rhs.Keys;
      forall k | k in lhs ensures lhs[k] == rhs[k] {
        if k != last.key {
          assert k in Attributes(rows) <==> k in Attributes(prefix);
        }
      }
    }
  }

  /** Items whose line amount equals their item amount keep that property through `Attributes`. */
  lemma {:induction false} AttributesUnitLines(rows: seq<RateTax>)
    requires forall i :: 0 <= i < |rows| ==> rows[i].amounts.line == rows[i].amounts.item
    ensures forall k :: k in Attributes(rows) ==> Attributes(rows)[k].line == Attributes(rows)[k].item
  {
    if |rows| > 0 {
      var prefix := rows[..|rows| - 1];
      assert forall i :: 0 <= i < |prefix| ==> prefix[i] == rows[i];
      AttributesUnitLines(prefix);
    }
  }

  /** A later map whose keys cover an earlier one's hides it completely. */
  lemma Shadowed<K, V>(m: map<K, V>, a: map<K, V>, b: map<K, V>)
    requires a.Keys <= b.Keys
    ensures m + a + b == m + b
  {
  }

  /**
   * `updateLineTotals`: both calculator calls, the saved totals and the
   * calculator's writes, in source order. The regular-price call runs
   * second and visits the same rates as the unit-price call, so its
   * itemisation and its rate-object writes are the ones that remain.
   */
  function Recompute(item: LineItem, objects: RateObjects, settings: TaxSettings, table: RateTable): (r: Recomputed)
    requires ExtractableTable(table)
    ensures r.item.input == item.input
    ensures r.item.totals == Totals(item.input, settings, table)
    // last write wins: the regular-price call's itemisation replaces the unit-price call's
    ensures r.item.itemised == item.itemised + RegularPriceTax(item.input, settings, table).Items()
    ensures r.item.itemised.Keys == item.itemised.Keys + TouchedKeys(item.input, settings, table)
    ensures r.rates.Keys == objects.Keys + TouchedKeys(item.input, settings, table)
    // rate objects the calculation does not visit are left alone
    ensures forall k :: k in objects && k !in TouchedKeys(item.input, settings, table) ==> r.rates[k] == objects[k]
    // every visited rate ends with line amount == item amount == tax_amount == subtotal_tax
    ensures forall k :: k in TouchedKeys(item.input, settings, table) ==>
              && r.item.itemised[k].line == r.item.itemised[k].item
              && r.rates[k] == RateFields(r.item.itemised[k].item, Some(r.item.itemised[k].item))
  {
    var first := UnitPriceTax(item.input, settings, table);
    var second := RegularPriceTax(item.input, settings, table);
    var itemised := item.itemised + first.Items() + second.Items();
    var written := WriteRows(WriteRows(objects, first.rows, first.subtotal), second.rows, second.subtotal);
    SecondCallWins(item.input, objects, settings, table);
    Shadowed(item.itemised, first.Items(), second.Items());
    AttributesUnitLines(second.rows);
    Recomputed(LineItem(item.input, Totals(item.input, settings, table), itemised), written)
  }

  /**
   * The two calls visit the same rate keys, and the second, a subtotal
   * call, overwrites every field the first one wrote.
   */
  lemma SecondCallWins(input: LineInput, objects: RateObjects, settings: TaxSettings, table: RateTable)
    requires ExtractableTable(table)
    ensures RowKeys(UnitPriceTax(input, settings, table).rows) == TouchedKeys(input, settings, table)
    ensures RowKeys(RegularPriceTax(input, settings, table).rows) == TouchedKeys(input, settings, table)
    ensures WriteRows(WriteRows(objects, UnitPriceTax(input, settings, table).rows, false),
                      RegularPriceTax(input, settings, table).rows, true)
            == objects + SubtotalFields(RegularPriceTax(input, settings, table).Items())
  {
    CallsVisitSameKeys(input, settings, table);
    SubtotalWriteHidesEarlier(objects, UnitPriceTax(input, settings, table).rows, RegularPriceTax(input, settings, table).rows);
  }

  /** Both calls visit the rates of the line's class, or none when tax does not apply. */
  lemma CallsVisitSameKeys(input: LineInput, settings: TaxSettings, table: RateTable)
    requires ExtractableTable(table)
    ensures RowKeys(UnitPriceTax(input, settings, table).rows) == TouchedKeys(input, settings, table)
    ensures RowKeys(RegularPriceTax(input, settings, table).rows) == TouchedKeys(input, settings, table)
  {
    if !Taxed(input, settings, table) {
      assert UnitPriceTax(input, settings, table).rows == [];
      assert RegularPriceTax(input, settings, table).rows == [];
    }
  }

  /** A subtotal write over the keys of an earlier write leaves no trace of it. */
  lemma SubtotalWriteHidesEarlier(objects: RateObjects, earlier: seq<RateTax>, later: seq<RateTax>)
    requires RowKeys(earlier) <= RowKeys(later)
    ensures WriteRows(WriteRows(objects, earlier, false), later, true)
            == objects + SubtotalFields(Attributes(later))
  {
    var between := WriteRows(objects, earlier, false);
    var fields := SubtotalFields(Attributes(later));
    SubtotalWriteOverrides(between, later);
    assert fields.Keys == RowKeys(later);
    assert between.Keys == objects.Keys + RowKeys(earlier);
    var lhs := between + fields;
    var rhs := objects + fields;
    assert lhs.Keys == rhs.Keys;
    forall k | k in lhs ensures lhs[k] == rhs[k] {
      if k in fields {
        assert lhs[k] == fields[k] == rhs[k];
      } else {
        assert k !in RowKeys(earlier) && k in objects;
        assert lhs[k] == between[k] == objects[k];
      }
    }
    assert lhs == rhs;
  }

  /** A line is consistent when recomputing it changes nothing. */
  predicate Consistent(item: LineItem, objects: RateObjects, settings: TaxSettings, table: RateTable)
    requires ExtractableTable(table)
  {
    Recompute(item, objects, settings, table) == Recomputed(item, objects)
  }

  /** Recomputing twice is recomputing once. */
  lemma RecomputeIdempotent(item: LineItem, objects: RateObjects, settings: TaxSettings, table: RateTable)
    requires ExtractableTable(table)
    ensures Consistent(Recompute(item, objects, settings, table).item,
                       Recompute(item, objects, settings, table).rates, settings, table)
  {
    var r := Recompute(item, objects, settings, table);
    var again := Recompute(r.item, r.rates, settings, table);
    var items := RegularPriceTax(item.input, settings, table).Items();
    assert again.item.input == r.item.input;
    assert again.item.totals == r.item.totals;
    Shadowed(item.itemised, items, items);
    assert again.item.itemised == r.item.itemised;
    assert again.item == r.item;
    SecondCallWins(item.input, objects, settings, table);
    SecondCallWins(item.input, r.rates, settings, table);
    Shadowed(objects, SubtotalFields(items), SubtotalFields(items));
    assert again.rates == r.rates;
  }

  /** The direction argument of `quantity`. */
  datatype Direction = Increase | Decrease

  /** `quantity`: one more or one fewer unit; nothing stops the quantity at zero. */
  function Quantity(input: LineInput, dir: Direction): (r: LineInput)
    ensures r.qty == input.qty + 1.0 || r.qty == input.qty - 1.0
    ensures r.qty > input.qty <==> dir == Increase
    ensures r.(qty := input.qty) == input
  {
    match dir
    case Increase => input.(qty := input.qty + 1.0)
    case Decrease => input.(qty := input.qty - 1.0)
  }

  /** Decreasing undoes increasing, and increasing undoes decreasing. */
  lemma QuantityInverse(input: LineInput)
    ensures Quantity(Quantity(input, Increase), Decrease) == input
    ensures Quantity(Quantity(input, Decrease), Increase) == input
  {
  }

  /**
   * `quantity` on a stored line: the quantity change triggers a
   * recomputation, which leaves a consistent line.
   */
  function AdjustQuantity(item: LineItem, objects: RateObjects, dir: Direction,
                          settings: TaxSettings, table: RateTable): (r: Recomputed)
    requires ExtractableTable(table)
    ensures r.item.input == Quantity(item.input, dir)
    ensures r.item.totals == Totals(Quantity(item.input, dir), settings, table)
    ensures Consistent(r.item, r.rates, settings, table)
  {
    var r := Recompute(item.(input := Quantity(item.input, dir)), objects, settings, table);
    RecomputeIdempotent(item.(input := Quantity(item.input, dir)), objects, settings, table);
    r
  }

  /**
   * The numeric attributes of a line that `sum` can be asked for: the
   * inputs, the saved totals, and the itemised `item_tax_<key>` and
   * `line_tax_<key>` attributes of one rate.
   */
  datatype Field =
    | Qty | ItemPrice | RegularPrice
    | ItemSubtotal | ItemSubtotalTax | ItemTax | Subtotal | SubtotalTax | TotalTax | Total
    | ItemTaxOf(key: RateKey) | LineTaxOf(key: RateKey)

  /** Whether the line carries the attribute: an itemised one exists only once its rate has been calculated. */
  predicate Present(item: LineItem, f: Field) {
    (f.ItemTaxOf? || f.LineTaxOf?) ==> f.key in item.itemised
  }

  /** Whether the line carries every named attribute. */
  predicate AllPresent(item: LineItem, names: seq<Field>) {
    forall i :: 0 <= i < |names| ==> Present(item, names[i])
  }

  /** The value of one attribute of a line. */
  function FieldValue(item: LineItem, f: Field): real
    requires Present(item, f)
  {
    match f
    case Qty => item.input.qty
    case ItemPrice => item.input.itemPrice
    case RegularPrice => item.input.regularPrice
    case ItemSubtotal => item.totals.itemSubtotal
    case ItemSubtotalTax => item.totals.itemSubtotalTax
    case ItemTax => item.totals.itemTax
    case Subtotal => item.totals.subtotal
    case SubtotalTax => item.totals.subtotalTax
    case TotalTax => item.totals.totalTax
    case Total => item.totals.total
    case ItemTaxOf(k) => item.itemised[k].item
    case LineTaxOf(k) => item.itemised[k].line
  }

  /** The exact sum of the named attributes. */
  function FieldTotal(item: LineItem, names: seq<Field>): real
    requires AllPresent(item, names)
  {
    if |names| == 0 then 0.0
    else
      var prefix := names[..|names| - 1];
      assert forall i :: 0 <= i < |prefix| ==> prefix[i] == names[i];
      FieldTotal(item, prefix) + FieldValue(item, names[|names| - 1])
  }

  /** `sum`: the named attributes added up in order, rounded once at the end. */
  method Sum(item: LineItem, names: seq<Field>) returns (s: real)
    requires AllPresent(item, names)
    ensures s == Round4(FieldTotal(item, names))
    ensures OnGrid(s)
  {
    var acc := 0.0;
    var i := 0;
    while i < |names|
      invariant 0 <= i <= |names|
      invariant acc == FieldTotal(item, names[..i])
    {
      assert names[..i + 1][..i] == names[..i];
      acc := acc + FieldValue(item, names[i]);
      i := i + 1;
    }
    assert names[..i] == names;
    s := Round4(acc);
  }
}
