# Quotation tool: pricing and quote table

A Dafny model of the deterministic core of a small quotation tool for
keychains, pins and stickers. The core has three parts:

- **Pricing** (`pricing.dfy`, module `Pricing`) models the price calculation of
  `comb.py`. A promotion lowers the purchase cost. A tariff on the discounted
  unit cost is added once. Accessories are charged per unit. A fixed 30% profit
  and a 3% insurance fee are laid on the total cost.
- **LegacyPricing** (`legacy_pricing.dfy`) models the older, different
  calculation of `quotool.py`. The insurance fee, the promotion and the tariff
  are rates on the cost price and are all added to it. A combined 30% markup
  gives the yuan unit price, and dividing by 7.3 gives the dollar price. A
  dollar total is reported only for a positive quantity; otherwise the source
  shows "-", which the model writes as `None`. The two formulas disagree, so
  they are kept apart; `Pricing.PromotionLowersCost` and
  `LegacyPricing.PromotionRaisesCost` show the promotion working in opposite
  directions.
- **QuoteItems** (`quote_items.dfy`) models the quote's line items. It covers
  building the line items from the form rows, the subtotal, the 10% new-customer
  discount and the grand total with shipping.
- **Quotes** (`quotes.dfy`) models the `quotes` table as a class `QuoteTable`
  whose rows are a sequence in storage order. Its operations are save under a
  generated quote number, lookup by number, lookup by client, and the save
  button's guard. The table invariant is the unique constraint on
  `quote_number` plus increasing row ids.

All arithmetic is over Dafny's exact `real`. The source computes in IEEE-754
doubles, so the proved identities (for example, sale price = 1.33 × total cost)
hold exactly for the reals, not bit for bit for doubles.

Inputs from the environment are parameters:

- the random `uuid4` quote number is `quoteNumber`;
- whether the database commits is `commitSucceeds`;
- whether a query runs without a storage exception is `readSucceeds`.

A save whose generated number is already in the table fails the unique
constraint and is rolled back, as the database would do. So no freshness
precondition is needed, and a successful save provably used an absent number.

With quantity 0 the total cost is the tariff, not zero, because the tariff is
charged once and not per unit (`Pricing.TariffChargedOnce`).

Row ids follow SQLite's integer primary key: a new row gets one more than the
largest id in use (`Quotes.NextId`). A rolled-back insert uses up no id.

## Model

| member | source | states |
|---|---|---|
| `Pricing.CalculatePrice` | comb.py:113-149 | discounted cost = cost − cost·promotion; tariff on the discounted unit cost; total cost = discounted·(quantity + tariff rate) + accessories·quantity; profit = 0.30·total, insurance = 0.03·total, sale price = 1.33·total |
| `Pricing.NonNegativeFigures` | comb.py:115-138 | with non-negative cost, accessories and quantity and both rates in [0, 1], all seven figures are ≥ 0 |
| `Pricing.TariffChargedOnce` | comb.py:118-127 | the tariff does not depend on quantity; with quantity 0 the total cost is the tariff and the sale price is 1.33·tariff |
| `Pricing.PromotionExtremes` | comb.py:115 | promotion 0 leaves the cost price unchanged; promotion 1 makes it 0 |
| `Pricing.PromotionLowersCost` | comb.py:115 | for a non-negative cost price, a larger promotion never raises the discounted cost |
| `Pricing.WorkedExample` | comb.py:113-149 | cost 100, promotion 10%, tariff 5%, accessories 2, quantity 3 give 90, 4.5, 6, 280.5, 84.15, 8.415, 373.065 |
| `LegacyPricing.CalculatePrice` | quotool.py:4-31 | total cost = cost·(1.03 + promotion + tariff) + accessories; yuan price = 1.3·total; dollar price·7.3 = yuan price; dollar total reported iff quantity > 0, and then equals dollar price·quantity |
| `LegacyPricing.QuantityOnlyAffectsTotal` | quotool.py:16-22 | the total cost, yuan price and dollar price do not depend on quantity |
| `LegacyPricing.NonNegativeFigures` | quotool.py:16-24 | with non-negative cost, accessories and rates, every reported figure is ≥ 0 |
| `LegacyPricing.PromotionRaisesCost` | quotool.py:17-20 | for a non-negative cost price, a larger promotion never lowers the total cost |
| `QuoteItems.BuildItems` | comb.py:195-224 | one line item per form row, in order, each carrying the row's data and total price = quantity·unit price |
| `QuoteItems.PricedCorrectly` | comb.py:212 | a line's stored total price is its quantity times its unit price |
| `QuoteItems.Built` | comb.py:217-224 | the appended line record carries the row's category, specification, size, quantity and unit price, and its total price |
| `QuoteItems.Subtotal` | comb.py:234 | the sum of the stored line totals over the item sequence |
| `QuoteItems.SumLineTotals` | comb.py:234 | summing the line totals from first to last gives the subtotal |
| `QuoteItems.SubtotalIsSumOfProducts` | comb.py:212-234 | when every line's stored total is quantity·unit price, the subtotal equals the sum of quantity·unit price |
| `QuoteItems.SubtotalAppend` | comb.py:234 | the subtotal of two runs of lines is the sum of their subtotals |
| `QuoteItems.SubtotalNonNegative` | comb.py:234 | lines with non-negative totals have a non-negative subtotal |
| `QuoteItems.ComputeTotals` | comb.py:234-238 | discounted subtotal = subtotal·(1 − 0.1); grand total = discounted subtotal + shipping = subtotal·(1 − 0.1) + shipping, so it agrees with the stored discount; for correctly priced lines, grand total = 0.9·Σ quantity·unit price + shipping |
| `QuoteItems.TotalsNonNegative` | comb.py:212-238 | non-negative quantities, prices and shipping give a non-negative discounted subtotal and a grand total ≥ shipping |
| `Quotes.UniqueNumbers` | comb.py:18 | no two rows share a quote number; the table's invariant |
| `Quotes.UniqueNumbersAppend` | comb.py:18 | inserting a row keeps the unique constraint exactly when its number is not yet in the table |
| `Quotes.NextId` | comb.py:17 | the new row id is positive and larger than every id in use |
| `Quotes.FirstWithNumber` | comb.py:72 | the position of the first row with the number, with no earlier row matching, or none exactly when no row has that number |
| `Quotes.QuoteByNumber` | comb.py:72-86 | returns the first stored row carrying the number (no earlier row carries it), or not found exactly when no row carries it |
| `Quotes.OnlyMatch` | comb.py:18 | under the unique constraint the row found by number is the only row with that number |
| `Quotes.QuotesByClient` | comb.py:93-108 | a record is in the result iff it is in the table with exactly that client name; the result is empty iff no row matches |
| `Quotes.QuotesByClientAppend` | comb.py:93 | storage order: a row appended to the table is appended to its client's list and changes no other client's list |
| `Quotes.AppendedIsFound` | comb.py:41-72 | a quote whose number is absent from the table is found by that number once appended |
| `Quotes.QuoteTable.Open` | comb.py:29-38 | connects to a well-formed existing table and keeps its rows |
| `Quotes.QuoteTable.Save` | comb.py:41-66 | succeeds iff the database commits and the number was absent; on success it appends exactly one row with the given fields and the next id, earlier rows stay unchanged, and the row is found by number and at the end of its client's list; on failure it returns `None` and the table is unchanged; the unique-number invariant is kept |
| `Quotes.QuoteTable.FindByNumber` | comb.py:69-88 | a storage error iff the read fails; otherwise not found iff no row has the number, else the only row with that number |
| `Quotes.QuoteTable.FindByClient` | comb.py:90-110 | a storage error iff the read fails; otherwise exactly the client's rows in storage order |
| `Quotes.QuoteTable.SubmitQuote` | comb.py:266-273 | refuses a quote with an empty client name or no items and changes nothing; otherwise saves with total = the computed grand total and discount 0.1, and the saved row's total equals subtotal·(1 − discount) + shipping |

## Left out

- The Streamlit user interface is presentation only and is not modelled. This covers widgets, rendering, layout, HTML containers and the plain-text quote preview (comb.py:151-296, quotool.py:33-68). The form limits the item count to 1–20 rows; `BuildItems` accepts any number of rows.
- The SQLAlchemy/SQLite engine and session are foreign library code. The model replaces them with an in-memory sequence. Commit and read failures come in as the parameters `commitSucceeds` and `readSucceeds`.
- `uuid.uuid4()` is randomness; the model takes the generated number as the parameter `quoteNumber`.
- The JSON encoding of the items is a foreign serializer. Items are stored as a typed sequence, so the serialization round trip is not modelled.
- IEEE-754 floating point, `round(x, 4)` in quotool.py and the `:.2f` display formatting are not modelled; the model computes in exact reals.
- The `st.error`/`st.warning` messages shown on failure are not modelled. They become the `None`, `SaveFailed`, `MissingFields` and `StorageError` results.
- Concurrency and the module-wide session are out of scope, because the source is single-threaded.
