# Cart line-item tax engine, modelled in Dafny

This project models the tax engine of the point-of-sale cart's line item
(`assets/js/src/entities/cart/model.js`). The engine follows WooCommerce's
`calc_tax`, `calc_exclusive_tax` and `calc_inclusive_tax`.

- **The tax calculator.** `calcTax` decides whether tax applies. It then either adds tax on top of a tax-exclusive price (`calcExclusiveTax`) or extracts the tax built into a tax-inclusive price (`calcInclusiveTax`). Each rate of the item's tax class is rounded to four digits. The calculator writes the itemised `item_tax_<key>`/`line_tax_<key>` attributes and the `tax_amount`/`subtotal_tax` fields of the shared rate objects.
- **`updateLineTotals`.** It runs the calculator twice: once on the unit price at the line's quantity, once on the regular price with the quantity omitted. It then saves seven totals.
- **`quantity` and `sum`.** These are the two convenience helpers.

Money is Dafny `real`, i.e. exact rational arithmetic. Rounding to four fraction digits is written out explicitly. The tax settings and the rate table are parameters.

Modules:

- `Options`: `Option<T>`. An omitted quantity is `None`.
- `Rounding`: `Round4` and the four-digit grid `OnGrid`.
- `TaxRates`: rates, rate tables, and the summed percentages R and C with their multipliers `1 + R` and `1 + C`.
- `LineTax`: the calculator: `CalcTax`, `CalcExclusiveTax`, `CalcInclusiveTax` and the per-rate raw taxes.
- `LineTaxProperties`: how compound rates combine; the exclusive/inclusive round trip; sign; itemisation; independence from the quantity; worked examples.
- `CartItem`: the line item `LineItem`, `Recompute` (`updateLineTotals`), `Quantity`, `AdjustQuantity` and `Sum`.
- `CartItemProperties`: which call the stored itemisation comes from, shipping and fee lines, single units, the order-independence of `sum`, and worked examples.

Notes on the source:

- The comment at model.js:71 reads "if price does not include tax". The condition under it (line 72) holds when prices *do* include tax. The model follows the condition.
- For every rate the inclusive branch computes a net price from the full price (line 154) and returns `price - net_price` (line 155). That difference is exactly the rate's share, `the_rate * the_price`, which is what `LineTax.InclusiveRaw` states.
- `updateLineTotals` calls the calculator on the unit price first and on the regular price second (lines 63-64). Both calls visit the same rates, so the second call's itemised attributes and rate-object fields are the ones that remain. As a result, `line_tax_<key>` and `tax_amount` end up holding the regular price's tax for one unit, not the line's tax at its quantity. The model states this behaviour (`CartItemProperties.ItemisedFromRegularPrice`) and does not change it.
- On shipping and fee lines the regular price is replaced by the unit price only after the subtotal tax has been computed from the original regular price (lines 62-69). `CartItemProperties.SubtotalTaxIgnoresLineType` states this.
- When tax stops applying to a line (it is made non-taxable, or its class loses its rates), `calcTax` skips every write (lines 98-105). The `item_tax_<key>`/`line_tax_<key>` attributes and the rate objects' `tax_amount` from an earlier taxed recomputation therefore stay in place, while the saved taxes drop to zero. The model reproduces this (`CartItemProperties.UntaxedLineKeepsItemisation`, `CartItemProperties.StaleItemisationExample`).

## Model

| member | source | states |
|---|---|---|
| Rounding.Round4 | assets/js/src/entities/cart/model.js:158-159 | Rounding to four digits lands on the four-digit grid, moves a value by at most half a grid step, leaves grid values unchanged and keeps non-negative values non-negative |
| TaxRates.SumPercent | assets/js/src/entities/cart/model.js:128-135 | The summed percentage of one kind of rate is non-negative for non-negative rates and zero when the class has no rate of that kind |
| TaxRates.NonNegativeMultipliers | assets/js/src/entities/cart/model.js:137-138 | With non-negative rates both multipliers `1 + R` and `1 + C` are at least one, so the inclusive branch never divides by zero |
| LineTax.Attributes | assets/js/src/entities/cart/model.js:161-163 | The itemised attributes written by a calculation exist for exactly the keys of the rates it visited |
| LineTax.AttributesLastWriteWins | assets/js/src/entities/cart/model.js:220-222 | When several rates write under one key, the attribute holds the amounts of the last rate that wrote it |
| LineTax.ItemTotalOnGrid | assets/js/src/entities/cart/model.js:225-226 | A sum of rounded item amounts is itself on the four-digit grid, so the final rounding of the sum changes nothing |
| LineTax.Itemise | assets/js/src/entities/cart/model.js:216-231 | The shared tail of both branches (lines 216-231 here; the inclusive branch repeats it at lines 157-172). Every rate gets item amount `round4(raw)` and line amount `round4(raw * qty)`, both from the unrounded raw value (qty 1 when omitted). The returned tax is the sum of the item amounts, and the subtotal flag is set exactly when the quantity was omitted |
| LineTax.PreCompoundTotal | assets/js/src/entities/cart/model.js:197-207 | The pre-compound total equals the price times R, the summed regular rates; compound rates contribute nothing to it |
| LineTax.ExclusiveRaw | assets/js/src/entities/cart/model.js:209-214 | Exclusive pricing: a regular rate's raw tax is `price * r/100`; a compound rate's raw tax is `price * (1 + R) * r/100` |
| LineTax.InclusiveRaw | assets/js/src/entities/cart/model.js:137-155 | Inclusive pricing: a compound rate's raw tax is `price * (r/100) / (1 + C)`; a regular rate's is `(price / (1 + C)) * (r/100) / (1 + R)` |
| LineTax.Extract | assets/js/src/entities/cart/model.js:139-155 | The net-price difference `price - (price - the_rate * the_price)` is the rate's share of the price with compound tax removed (regular rate) or of the whole price (compound rate) |
| LineTax.CalcExclusiveTax | assets/js/src/entities/cart/model.js:184-237 | One row per rate, in rate order, under the rate's key, holding the exclusive raw tax rounded per item and per line; the returned tax is the on-grid sum of the item amounts |
| LineTax.CalcInclusiveTax | assets/js/src/entities/cart/model.js:115-178 | One row per rate, in rate order, under the rate's key, holding the inclusive raw tax rounded per item and per line; the returned tax is the on-grid sum of the item amounts |
| LineTax.CalcTax | assets/js/src/entities/cart/model.js:93-109 | Zero tax and no itemisation unless taxes are on, the item is taxable and its class has rates. Otherwise the inclusive or the exclusive branch, as the setting says. The rows cover the class's rate keys, and an omitted quantity makes every line amount equal its item amount |
| LineTaxProperties.CompoundRatesDoNotStack | assets/js/src/entities/cart/model.js:209-214 | Adding another compound rate to a class changes no rate's exclusive raw tax: compound rates apply to the price plus the regular taxes only |
| LineTaxProperties.ExclusiveRawSumBases | assets/js/src/entities/cart/model.js:197-214 | Corollary of `LineTax.ExclusiveRaw`, summed over a class: the exclusive raw taxes apply regular rates to the price and compound rates to the price plus the pre-compound total |
| LineTaxProperties.RawSumClosedForm | assets/js/src/entities/cart/model.js:197-214 | The summed raw taxes are the price times R plus the compound base times C |
| LineTaxProperties.GrossPriceAddsExclusiveTaxes | assets/js/src/entities/cart/model.js:197-214 | The price plus all its unrounded exclusive taxes equals `price * (1 + R) * (1 + C)` |
| LineTaxProperties.RawRoundTrip | assets/js/src/entities/cart/model.js:137-155 | Extracting one rate's tax from the gross price gives back that rate's exclusive raw tax on the net price |
| LineTaxProperties.ExclusiveInclusiveRoundTrip | assets/js/src/entities/cart/model.js:115-178 | The inclusive calculation on the gross price produces the same rows, item and line amounts, and tax as the exclusive calculation on the price, for any rate list and quantity |
| LineTaxProperties.SingleRateRoundTrip | assets/js/src/entities/cart/model.js:137-155 | With one regular rate r, the exclusive tax on P equals the inclusive tax on `P * (1 + r/100)` |
| LineTaxProperties.TaxNonNegative | assets/js/src/entities/cart/model.js:93-109 | Non-negative price, quantity and rates give a non-negative tax and non-negative item and line amounts in both branches |
| LineTaxProperties.ItemisedPerRate | assets/js/src/entities/cart/model.js:161-163 | With distinct keys the itemised attributes hold exactly one entry per rate of the class, that rate's amounts |
| LineTaxProperties.TaxIndependentOfQuantity | assets/js/src/entities/cart/model.js:157-167 | The returned tax and every item amount are the same whatever the quantity; only the line amounts depend on it |
| LineTaxProperties.EmptyRatesNoTax | assets/js/src/entities/cart/model.js:205-207 | A class without rates yields tax 0 and no itemisation in both branches |
| LineTaxProperties.CompoundExample | assets/js/src/entities/cart/model.js:209-214 | 10% regular plus 5% compound on 100: the compound rate is charged on 110, so the rows are 10 and 5.5 and the tax is 15.5 |
| LineTaxProperties.CompoundExampleInclusive | assets/js/src/entities/cart/model.js:141-155 | The same class priced inclusively at 115.5 yields exactly the exclusive result on 100 |
| CartItem.Save | assets/js/src/entities/cart/model.js:66-85 | The saved fields from the two taxes. Shipping and fee lines take their subtotal from the unit price. With tax-inclusive prices each price loses its own tax before scaling. Every scaled total is the rounded product with the quantity, and `item_subtotal` stays unrounded |
| CartItem.Totals | assets/js/src/entities/cart/model.js:58-85 | The totals come from the unit-price call at the quantity and the regular-price call without it. The item tax is already on the grid. A line without tax carries zero taxes and a total equal to its scaled price |
| CartItem.InclusiveTotalsSplit | assets/js/src/entities/cart/model.js:72-84 | With tax-inclusive prices the saved total plus total tax is within one grid step of the price paid, unit price times quantity |
| CartItem.ExclusiveTotals | assets/js/src/entities/cart/model.js:77-85 | Corollary of `CartItem.Save` for tax-exclusive prices: the total is the rounded unit price times quantity, and the subtotal is the rounded regular price (unit price on shipping and fee lines) times quantity |
| CartItem.WriteRows | assets/js/src/entities/cart/model.js:164-172 | The calculator's writes touch exactly the rate objects of the visited keys and leave every other rate object as it was |
| CartItem.SubtotalWriteOverrides | assets/js/src/entities/cart/model.js:223-231 | A call with the quantity omitted sets both `tax_amount` and `subtotal_tax` of every rate it visits, so the result depends only on its own itemisation |
| CartItem.Recompute | assets/js/src/entities/cart/model.js:58-87 | The inputs are unchanged, the totals are recomputed, and last write wins. The stored itemisation is the previous one overlaid with the regular-price call's. Unvisited rate objects are untouched. Every visited rate ends with equal item and line amounts and with `tax_amount` equal to `subtotal_tax` equal to that item amount |
| CartItem.SecondCallWins | assets/js/src/entities/cart/model.js:63-64 | Both calls visit the same rate keys, and the second call's writes to the rate objects hide the first call's completely |
| CartItem.RecomputeIdempotent | assets/js/src/entities/cart/model.js:58-87 | Recomputing a recomputed line changes neither the line nor the rate objects |
| CartItem.Quantity | assets/js/src/entities/cart/model.js:240-243 | The quantity moves by exactly one, up for increase and down otherwise, with no floor at zero; nothing else changes |
| CartItem.QuantityInverse | assets/js/src/entities/cart/model.js:240-243 | Decreasing undoes increasing and increasing undoes decreasing |
| CartItem.AdjustQuantity | assets/js/src/entities/cart/model.js:240-243 | Changing the quantity triggers a recomputation, and the resulting line is consistent: recomputing it again changes nothing |
| CartItem.Sum | assets/js/src/entities/cart/model.js:246-252 | The loop returns the four-digit rounding of the exact sum of the named attributes. Names cover the inputs, the saved totals and each rate's `item_tax_<key>`/`line_tax_<key>`, and must be attributes the line carries |
| CartItemProperties.FieldTotalPermutation | assets/js/src/entities/cart/model.js:246-252 | The sum of attributes depends only on which attributes are named (as a multiset), not on their order |
| CartItemProperties.ItemisedTaxesSumToSubtotalTax | assets/js/src/entities/cart/model.js:246-252 | On a recomputed taxed line with distinct rate keys, `sum` over the `item_tax_<key>` attributes of the class's rates gives back `item_subtotal_tax` |
| CartItemProperties.ItemisedFromRegularPrice | assets/js/src/entities/cart/model.js:63-64 | With distinct keys, each stored `item_tax_<key>`/`line_tax_<key>` pair and each `tax_amount` is the regular price's tax for one unit |
| CartItemProperties.ItemisedIgnoresUnitPrice | assets/js/src/entities/cart/model.js:63-64 | Changing the unit price or the quantity changes neither the stored itemisation nor the rate objects |
| CartItemProperties.SubtotalTaxIgnoresLineType | assets/js/src/entities/cart/model.js:62-69 | The line type changes neither `item_subtotal_tax`, `subtotal_tax`, `item_tax`, `total_tax` nor `total`; the subtotal tax always comes from the original regular price |
| CartItemProperties.ShippingSubtotalFromUnitPrice | assets/js/src/entities/cart/model.js:66-74 | Corollary of `CartItem.Save` for shipping and fee lines: `item_subtotal` is the unit price, minus the regular price's tax when prices include tax |
| CartItemProperties.UntaxedLineKeepsItemisation | assets/js/src/entities/cart/model.js:98-105 | When no tax applies, recomputing leaves the itemised attributes and the rate objects exactly as they were, while `item_subtotal_tax` becomes zero |
| CartItemProperties.StaleItemisationExample | assets/js/src/entities/cart/model.js:98-105 | A line taxed at 10% on 100.00 and then made non-taxable keeps `item_tax_0` at 10 and its rate object, while its saved subtotal tax is zero |
| CartItemProperties.SingleUnitTotals | assets/js/src/entities/cart/model.js:80-83 | For one unit, `total_tax` equals `item_tax` and `subtotal_tax` equals `item_subtotal_tax` |
| CartItemProperties.ShippingExample | assets/js/src/entities/cart/model.js:66-85 | An untaxed 20.00 shipping line bought three times has subtotal and total 60 and no tax, whatever the settings |
| CartItemProperties.ProductExample | assets/js/src/entities/cart/model.js:77-85 | 100.00 at 10% exclusive, two units: item tax 10, total tax 20, total 200, subtotal 200 and subtotal tax 20 |

## Left out

- `initialize` (model.js:22-56): the order-id lookup and the fetching of tax options and rates over the request bus are I/O and global state. The settings and the rate table are parameters instead.
- Event wiring and persistence (model.js:43-49, 77): `Recompute` is a pure function that returns the new line and rate objects. `AdjustQuantity` stands for "set the quantity, then let the change event recompute".
- String decoding: `parseFloat` of rates and prices, the `'yes'` flags and the truthiness of `taxable` arrive already decoded as reals and booleans. A missing regular price (NaN after `parseFloat`) is not modelled.
- IEEE-754 floating point: all arithmetic is exact over `real`, and nothing is claimed about bit-exactness with JavaScript.
- Rounding.Round4: `Utils.round` is not part of this model. `Round4` rounds half up, but its contract (grid, distance, exactness on the grid, sign) holds for every usual tie rule, and nothing else relies on the tie rule.
- Rate keys are natural numbers (array indices or integer-like rate ids). With non-numeric string keys, `taxes.length` in the exclusive branch stays 0, so the pre-compound total would be 0. That case is not modelled.
- Inclusive pricing where `1 + R` or `1 + C` is zero (Infinity or NaN in the source) is excluded by the precondition `ExtractableTable` of `CalcTax`, `Totals` and `Recompute`. That precondition constrains every class of the table, under exclusive pricing too. Only tables with rates of -100% in total are affected, since non-negative rates always meet it (`TaxRates.NonNegativeMultipliers`).
- The lodash iteration is replaced by ordered traversal of a sequence.
- The rate objects are modelled for the line's own tax class only, keyed by rate key. Their sharing with other lines of the class is left to the caller, who threads them through.
- CartItem.Quantity: the source decreases for any argument other than `'increase'`; the model has exactly two directions.
- CartItem.Sum: the names cover the inputs, the saved totals and the itemised `item_tax_<key>`/`line_tax_<key>` attributes. Other attributes (`title`, `order_id`, ...), string concatenation and absent attributes (NaN in the source) are not modelled.
