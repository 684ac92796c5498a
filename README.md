# Factory resource inventory, modelled in Dafny

This project models the core of a Laravel/Filament inventory system for a
factory: a central hub and projects hold resources (materials counted in
a base unit such as kg, liter or piece), goods are received against goods
receipt notes (GRNs), and every stock movement is written to an
append-only ledger of inventory transactions. The model covers:

- **The ledger.** `Transactions` holds the entries, `InventoryLedger` the
  transaction service that writes purchases, goods receipts, allocations,
  consumptions and transfers, and its immutability hooks.
- **The reports.** `StockCalculator` gives balances, daily reports and
  valuation. `Reporting` has the period, valuation, low-stock and
  project-consumption reports. `DailyExport` builds the daily consumption
  spreadsheet, and `DailyInventoryReport` the daily inventory report page.
- **Batches.** `ResourceBatch` is a purchase lot. `BatchInventory` is the
  resource model: it consumes batches first-in first-out, and moves them
  between the hub and a project.
- **Units.** `UnitConversion` holds the unit conversion tables of the
  resource pages, the receipt form and the GRN line item.
- **Goods receipts.** `GoodsReceipt` covers GRN numbering
  (`GRN-<year>-<5-digit count>`) and the create page's form rewrite.
  `GrnLineItems` covers the line item's total and base quantity hooks.
- **The item-list cleanup script.** `CsvCleanup` models the script that
  normalises an exported item list.
- **The bulk entry pages.** `BulkRows` holds what they share.
  `BulkAddResources`, `BulkAddProjects` and `BulkAddGrn` are the pages
  themselves.

`Wrappers`, `Text` and `Decimal` provide the shared pieces:

- option and result types;
- Python's `strip`/`lower`/`in` and PHP's `strtolower`/`str_pad`/`empty()`;
- PHP's `round` to decimal places.

Stateful parts are classes whose methods change their fields. The ledger
(`InventoryLedger.Ledger`), a resource with its batches
(`BatchInventory.Resource`), a GRN being saved
(`GoodsReceipt.GoodsReceiptNote`), the stores behind the bulk pages and the
report page are of this kind. Each method's contract ties the new state to
a function of the old state, and lemmas prove what the source promises
about those functions. Pure computations are functions with lemmas.

Quantities and prices are `real`: the model works with exact decimals,
where the source works with database decimals and PHP floats. Dates are
day numbers. "Now" (today, the current year), the logged-in user and
the database's contents are parameters.

## Model

| member | source | states |
|---|---|---|
| Text.LStripSpec | cleanup_csv.py:34-37 | stripping the left keeps a suffix of the string, the suffix does not start with whitespace, and everything dropped was whitespace |
| Text.RStripSpec | cleanup_csv.py:34-37 | stripping the right keeps a prefix, the prefix does not end with whitespace, and everything dropped was whitespace |
| Text.StripSpec | cleanup_csv.py:34-37 | `strip()` never lengthens a string, and what it leaves neither starts nor ends with whitespace |
| Text.StripIdempotent | cleanup_csv.py:54 | stripping an already stripped string changes nothing |
| Text.StripAllSpace | cleanup_csv.py:34-37 | a cell made only of whitespace strips to the empty string |
| Text.LowerIsLower | cleanup_csv.py:50 | after lower-casing no capital letter is left, and every other character is unchanged |
| Text.LowerFixed | cleanup_csv.py:54 | a string without capitals is its own lower-casing |
| Text.LowerIdempotent | cleanup_csv.py:54 | lower-casing twice equals lower-casing once |
| Text.ContainsAt | cleanup_csv.py:62 | `key in s` holds exactly when the key occurs in `s` at some position |
| Text.ContainsNecessary | cleanup_csv.py:62 | a key found in `s` is no longer than `s`, is `s` itself when as long, and has its first character in `s` |
| Text.ContainsSelf | cleanup_csv.py:62 | every string occurs in itself |
| Text.NatToString | app/Models/GoodsReceiptNote.php:42 | the rendering of a count is a non-empty string of digits |
| Text.ParseNatToString | app/Models/GoodsReceiptNote.php:42 | reading a rendered count back gives the count |
| Text.NatToStringInjective | app/Models/GoodsReceiptNote.php:42 | different counts render differently |
| Text.Repeat | app/Models/GoodsReceiptNote.php:42 | the pad string has the requested length and only the pad character |
| Text.PadLeft | app/Models/GoodsReceiptNote.php:42 | `str_pad(..., STR_PAD_LEFT)` gives the longer of the width and the input, ends with the input, and is padded with the pad character only |
| Text.ParsePadded | app/Models/GoodsReceiptNote.php:42 | a zero-padded count is all digits and reads back as the count |
| Text.Prefix | app/Exports/DailyConsumptionExport.php:209 | `substr(s, 0, n)` is the first `min(n, |s|)` characters of `s` |
| CsvCleanup.UnitMappingWellFormed | cleanup_csv.py:5-19 | no unit in the table is empty, and the default `piece` is one of its units |
| CsvCleanup.InGroups | cleanup_csv.py:5-19 | each table entry lies in one of the groups the table is written out in |
| CsvCleanup.ExactLookup | cleanup_csv.py:58 | the dictionary lookup finds a unit exactly when the string is a key, and the unit found is that key's |
| CsvCleanup.FirstSubstringIndex | cleanup_csv.py:61-65 | the scan stops at the first key that occurs in the unit string, no earlier key occurs in it, and it finds nothing only when no key occurs |
| CsvCleanup.MapUnitInTable | cleanup_csv.py:54-68 | the mapped unit is never empty and always one of the table's units; only a non-empty unit string is reported unmapped, and it is reported as itself |
| CsvCleanup.MapUnitCases | cleanup_csv.py:54-68 | the four ways of mapping, in the order they are tried: empty gives `piece`, then an exact key, then the first key contained in the string, then `piece` with the string reported unmapped |
| CsvCleanup.MapUom | cleanup_csv.py:54-68 | the lookup-then-scan loop as written computes that mapping |
| CsvCleanup.Cleanup | cleanup_csv.py:30-77 | the row loop's output records, category list, counters and unmapped tally are the per-row classification folded over the rows |
| CsvCleanup.PassStep | cleanup_csv.py:33-77 | one more row extends each result by that row's outcome alone |
| CsvCleanup.CountersAddUp | cleanup_csv.py:39-77 | `total_rows` is the number of rows and the sum of the four other counters; `valid_rows` counts the output records and `category_headers` the category list |
| CsvCleanup.ClassifyRules | cleanup_csv.py:41-52 | a row is skipped as empty exactly when its description is blank; it is a category header exactly when the description is not blank but the code or type is; it is a service exactly when all three are filled and the type lower-cases to `service` |
| CsvCleanup.ItemShape | cleanup_csv.py:70-76 | every record carries the stripped name and code, category `Others`, an empty description and a non-empty unit from the table |
| CsvCleanup.CleanItemsGrow | cleanup_csv.py:70-77 | more input rows only append to the output |
| CsvCleanup.CleanItemsInOrder | cleanup_csv.py:70-77 | the record of an item row appears right after the records of the rows before it |
| CsvCleanup.CleanItemsFromRows | cleanup_csv.py:70-77 | every output record is the record of some item row |
| CsvCleanup.Reports | cleanup_csv.py:66-67 | the per-row unmapped report, one entry for each row |
| CsvCleanup.BumpAllKeys | cleanup_csv.py:22 | a default counter has a key exactly for the strings it was bumped with |
| CsvCleanup.UnmappedCountsAsBumpAll | cleanup_csv.py:66-67 | the unmapped tally is the counter over the rows' reports |
| CsvCleanup.UnmappedKeys | cleanup_csv.py:66-67 | the unmapped tally has a key exactly for the unit strings that some row reported |
| CsvCleanup.UnmappedRow | cleanup_csv.py:58-67 | a row reports its unit unmapped only if the unit is non-empty, is no key, and contains no key |
| CsvCleanup.UnmappedNeverMatched | cleanup_csv.py:58-67 | every key of the unmapped tally is non-empty, is no table key, and contains none |
| CsvCleanup.SumCountsRemove | cleanup_csv.py:22 | a counter's total is one key's count plus the total of the rest |
| CsvCleanup.BumpSum | cleanup_csv.py:67 | one bump raises the counter's total by one |
| CsvCleanup.UnmappedBounded | cleanup_csv.py:66-77 | the unmapped counts add up to at most the number of valid rows |
| CsvCleanup.ExactAt | cleanup_csv.py:58 | the first entry with the given key decides an exact match |
| CsvCleanup.EmptyUnitExample | cleanup_csv.py:55-56 | an empty unit maps to `piece` and is not reported |
| CsvCleanup.ExactKeyExample | cleanup_csv.py:58 | `pcs.` maps to `piece` by the exact lookup |
| CsvCleanup.ExactBeforeSubstringExample | cleanup_csv.py:58-65 | `liters` maps to `liters`, although the earlier key `liter` occurs in it: the exact lookup comes first |
| CsvCleanup.SubstringExample | cleanup_csv.py:61-65 | `kgs` is no key and maps to `kg` by the scan |
| CsvCleanup.UnmappedExample | cleanup_csv.py:66-68 | `xyz` falls back to `piece` and is reported unmapped |
| CsvCleanup.SteelRodExample | cleanup_csv.py:33-77 | a row ` Steel Rod `, `SR-01`, `Pcs.`, `Material` becomes the record `Steel Rod`/`SR-01`/`Others`/`piece` |
| CsvCleanup.UnitMappingDistinct | cleanup_csv.py:5-19 | no key occurs twice in the unit table |
| CsvCleanup.UnitsMapToThemselves | cleanup_csv.py:5-19 | every unit of the table is itself a key, and it maps to itself by an exact match |
| CsvCleanup.SelfEntryMaps | cleanup_csv.py:58 | in a table without repeated keys, a unit with an entry mapping it to itself maps to itself |
| CsvCleanup.MapUnitIdempotent | cleanup_csv.py:54-68 | mapping is idempotent: the unit any string maps to maps to itself again, and is not reported unmapped |
| Transactions.LocationOf | app/Services/InventoryTransactionService.php:394-400 | a null project id is the hub and only it is; any other id is that project |
| Transactions.TransactionTypesExact | app/Models/InventoryTransaction.php:173-186 | the type list has nine entries, names every type and none twice |
| Transactions.TypeNameRoundTrip | app/Models/InventoryTransaction.php:13-21 | each type's stored string reads back as that type |
| Transactions.TypeNameInjective | app/Models/InventoryTransaction.php:13-21 | no two types share a stored string |
| Transactions.Create | app/Models/InventoryTransaction.php:70-73 | a created entry keeps the given fields, and its total is quantity times unit price whatever total the caller passed |
| Transactions.AllWellFormedAppend | app/Models/InventoryTransaction.php:70-73 | appending entries made by the creating hook keeps every total equal to quantity times price |
| Transactions.Classification | app/Models/InventoryTransaction.php:150-168 | an entry is a hub entry exactly when it is no project entry; no entry is both incoming and outgoing, and a zero quantity is neither |
| Transactions.SumConcat | app/Services/InventoryTransactionService.php:392-403 | a `sum()` over a ledger written in two parts is the sum over the parts |
| Transactions.SumPositive | app/Services/StockCalculator.php:64-77 | a sum of positive quantities is positive exactly when the filter keeps an entry |
| Transactions.SumNegative | app/Services/StockCalculator.php:87-100 | a sum of negative quantities is negative exactly when the filter keeps an entry |
| Transactions.SumAtPrice | app/Services/InventoryTransactionService.php:412-431 | with well-formed entries at one price, the summed value is the summed quantity times the price |
| Transactions.StockAppend | app/Services/InventoryTransactionService.php:392-403 | appending entries moves a location's stock by their quantities there |
| Transactions.StockValueAppend | app/Services/InventoryTransactionService.php:424-430 | appending entries moves a location's summed value by their values there |
| Transactions.SystemAppend | app/Services/InventoryTransactionService.php:392-403 | appending entries moves a resource's system-wide stock and value by theirs |
| Transactions.AveragePrice | app/Services/InventoryTransactionService.php:412-431 | the weighted average is 0 when the stock is not positive, and otherwise times the stock gives the summed value |
| Transactions.AveragePriceUniform | app/Services/InventoryTransactionService.php:412-431 | when every entry at a location was booked at one price, the average is that price |
| Decimal.Pow10 | app/Filament/Resources/GoodsReceiptNoteResource/Pages/CreateGoodsReceiptNote.php:36 | the scale of `d` decimal places is at least 1 |
| Decimal.StepsError | app/Filament/Resources/GoodsReceiptNoteResource/Pages/CreateGoodsReceiptNote.php:36 | the nearest whole number of steps is at most half a step away and on the same side of zero |
| Decimal.RoundSign | app/Filament/Resources/GoodsReceiptNoteResource/Pages/CreateGoodsReceiptNote.php:36-49 | `round` keeps the sign of its argument |
| Decimal.RoundError | app/Filament/Resources/GoodsReceiptNoteResource/Pages/CreateGoodsReceiptNote.php:36-49 | `round(x, d)` is within half a unit of the d-th decimal place of `x` |
| Decimal.RoundExact | app/Filament/Resources/GoodsReceiptNoteResource/Pages/CreateGoodsReceiptNote.php:36-49 | a value that already has `d` places is left as it is |
| Decimal.RoundOdd | app/Filament/Resources/GoodsReceiptNoteResource/Pages/CreateGoodsReceiptNote.php:36-49 | rounding is symmetric about zero, with halves rounded away from zero |
| Decimal.RoundIdempotent | app/Filament/Resources/GoodsReceiptNoteResource/Pages/CreateGoodsReceiptNote.php:36-49 | rounding twice to the same places is rounding once |
| UnitConversion.FindFrom | app/Filament/Resources/ResourceResource.php:602-603 | the search returns the first position at or after `k` with the key, and nothing only when no later entry has it |
| UnitConversion.LookupSpec | app/Filament/Resources/ResourceResource.php:602-603 | `$t[$key] ?? null` is null exactly when no entry has the key, and otherwise the value of an entry with it |
| UnitConversion.LookupConcat | app/Filament/Resources/ResourceResource.php:553-599 | a lookup in a table written in two parts asks the first part, then the second |
| UnitConversion.LookupAt | app/Filament/Resources/ResourceResource.php:553-599 | the first entry with the key decides the lookup |
| UnitConversion.LookupPositive | app/Filament/Resources/ResourceResource.php:553-599 | a table of positive factors yields only positive factors |
| UnitConversion.FactorInPositive | app/Filament/Resources/ResourceResource.php:602-603 | a factor read with the default 1.0 is positive |
| UnitConversion.RatioInverse | app/Filament/Resources/ResourceResource.php:541-607 | the table's ratio is positive, and the ratio back undoes it |
| UnitConversion.RatioOf | app/Filament/Resources/ResourceResource.php:602-606 | for two different units with factors `x` and `y` the ratio is `x / y` |
| UnitConversion.FlatTablePositive | app/Filament/Resources/ResourceResource.php:553-599 | every factor of the resource pages' table is positive |
| UnitConversion.BlocksDisjoint | app/Filament/Resources/ResourceResource.php:553-599 | no unit is listed in two of the weight, volume, length and area blocks |
| UnitConversion.MeasureLookup | app/Filament/Resources/ResourceResource.php:553-581 | the measure blocks answer for a unit with the block that lists it |
| UnitConversion.CountingLookup | app/Filament/Resources/ResourceResource.php:582-599 | the count blocks answer for a unit with the block that lists it |
| UnitConversion.FlatLookup | app/Filament/Resources/ResourceResource.php:553-599 | the whole table answers with the first block that lists the unit |
| UnitConversion.PageFactorInverse | app/Filament/Resources/ResourceResource.php:541-607 | the page factor is positive for every pair of units, and converting there and back is the identity |
| UnitConversion.PageFactorPositive | app/Filament/Resources/ResourceResource.php:541-607 | every page factor is positive |
| UnitConversion.PageFactorCases | app/Filament/Resources/ResourceResource.php:541-607 | units equal up to case convert with factor 1; a unit missing from the table counts as factor 1 |
| UnitConversion.TonExamples | app/Filament/Resources/ResourceResource.php:541-607 | 2 t are 2000 kg, whatever the case of the names; with no family check a ton converts to 1000 liters |
| UnitConversion.CountExamples | app/Filament/Resources/ResourceResource.php:541-607 | 3 dozen are 36 pieces, and a pair is 2 pieces |
| UnitConversion.ScaledKeepsValue | app/Filament/Resources/ResourceResource/Pages/ViewResource.php:233-238 | scaling the quantity up by a factor and the price down by it keeps their product |
| UnitConversion.ConvertPurchaseSpec | app/Filament/Resources/ResourceResource/Pages/ViewResource.php:233-247 | the purchase keeps its value; the base quantity is the quantity times the page factor; a conversion note is added exactly when the factor is not 1; without a purchase unit nothing is converted |
| UnitConversion.CommonGroupFrom | app/Models/GoodsReceiptNoteLineItem.php:110-125 | the first group at or after `k` that lists both units, and nothing only when no such group follows |
| UnitConversion.CommonGroupSymmetric | app/Models/GoodsReceiptNoteLineItem.php:110-125 | the group search does not depend on the direction of the conversion |
| UnitConversion.GroupedRatioInverse | app/Models/GoodsReceiptNoteLineItem.php:83-126 | a grouped factor is positive, and the factor back undoes it |
| UnitConversion.LineFactorInverse | app/Models/GoodsReceiptNoteLineItem.php:83-126 | the line item's factor is positive and inverts, and is 1 for a pair of units in no common group |
| UnitConversion.LineFactorPositive | app/Models/GoodsReceiptNoteLineItem.php:83-126 | the line item's factor is positive |
| UnitConversion.GroupedConvert | app/Models/GoodsReceiptNoteLineItem.php:68-78 | a converted quantity keeps its sign |
| UnitConversion.GroupedBooking | app/Services/InventoryTransactionService.php:98-112 | the booked quantity is the converted one, and quantity times price is kept |
| UnitConversion.LineWeightAgrees | app/Models/GoodsReceiptNoteLineItem.php:90-93 | the line item's weight group has the factors of the page table's weight block |
| UnitConversion.LineVolumeAgrees | app/Models/GoodsReceiptNoteLineItem.php:95-98 | the same for volume |
| UnitConversion.LineLengthAgrees | app/Models/GoodsReceiptNoteLineItem.php:100-103 | the same for length |
| UnitConversion.LineAreaAgrees | app/Models/GoodsReceiptNoteLineItem.php:105-108 | the same for area |
| UnitConversion.LineGroupsLowerCase | app/Models/GoodsReceiptNoteLineItem.php:89-108 | the groups list lower-case units only |
| UnitConversion.GroupInFlat | app/Models/GoodsReceiptNoteLineItem.php:89-108 | a unit of a group has the same factor in the page table |
| UnitConversion.LineFactorAgreesInGroup | app/Models/GoodsReceiptNoteLineItem.php:83-126 | when both units share a group, the line item and the pages give the same factor |
| UnitConversion.LineFactorIgnoresCounts | app/Models/GoodsReceiptNoteLineItem.php:83-126 | as written, the line item converts a dozen and a pair to pieces with factor 1, where the pages use 12 and 2 |
| UnitConversion.NotGrouped | app/Models/GoodsReceiptNoteLineItem.php:89-108 | `dozen`, `pair` and `KG` share a group with no unit |
| UnitConversion.LineFactorCaseSensitive | app/Models/GoodsReceiptNoteLineItem.php:83-126 | the line item compares names exactly: `KG` to `g` is factor 1, although the pages read `KG` as `kg` |
| UnitConversion.CorrectedLineGroupsPositive | app/Models/GoodsReceiptNoteLineItem.php:89-108 | the groups with a count group added have positive factors |
| UnitConversion.CorrectedLineFactorInverse | app/Models/GoodsReceiptNoteLineItem.php:83-126 | the corrected factor is positive and inverts |
| UnitConversion.CorrectedKeepsMeasures | app/Models/GoodsReceiptNoteLineItem.php:83-126 | within the measure groups the corrected factor is the original one |
| UnitConversion.CorrectedCounts | app/Models/GoodsReceiptNoteLineItem.php:83-126 | with the count group, a dozen is 12 pieces and a pair 2, as on the pages |
| UnitConversion.MeasureUnitsListed | app/Filament/Resources/ResourceResource.php:553-581 | every measure unit has a factor |
| UnitConversion.CountingUnitsListed | app/Filament/Resources/ResourceResource.php:582-599 | every count unit has a factor |
| UnitConversion.InFactorTableHasFactor | app/Filament/Resources/ResourceResource.php:553-599 | every unit of the two unit sets has a factor |
| UnitConversion.OptionMapsWellFormed | app/Filament/Resources/ResourceResource.php:318-536 | both option maps (the pages' and the bulk receipt page's) list their own key first, and offer only units with a factor |
| UnitConversion.OptionsOfferBase | app/Filament/Resources/ResourceResource.php:531-535 | the base unit is always offered: the listed options when its lower-cased name is a key, and the base unit alone otherwise |
| UnitConversion.OfferedUnitsConvert | app/Filament/Resources/ResourceResource.php:318-536 | every unit a form offers for a base unit converts to it with a positive factor that inverts |
| UnitConversion.MilligramOptions | app/Filament/Resources/ResourceResource.php:318-536 | the pages offer only `mg` for a base unit of mg, and the bulk receipt page offers mg, g, kg, lb and oz even for `MG` |
| GoodsReceipt.GrnNumberShape | app/Models/GoodsReceiptNote.php:42 | a generated number is `GRN-<year>-` followed by at least five digits that read back as the year's count plus one; padding never cuts a digit |
| GoodsReceipt.GrnNumberInjective | app/Models/GoodsReceiptNote.php:40-42 | two numbers are equal only for the same year and the same count |
| GoodsReceipt.PrefixesAgree | app/Models/GoodsReceiptNote.php:42 | two year prefixes that both start one number belong to the same year |
| GoodsReceipt.GrnNumberExamples | app/Models/GoodsReceiptNote.php:41-42 | the first note of 2026 is `GRN-2026-00001`, and the hundred-thousandth grows past five digits to `GRN-2026-100000` |
| GoodsReceipt.GoodsReceiptNote.Creating | app/Models/GoodsReceiptNote.php:37-49 | a number is generated only when none was given, from the year and the year's count; the author is taken from the logged-in user only when unset and someone is logged in; otherwise both fields keep their values |
| GoodsReceipt.ConversionFor | app/Filament/Resources/GoodsReceiptNoteResource/Pages/CreateGoodsReceiptNote.php:24-32 | the form is converted exactly when a resource is chosen and found, a receipt unit is chosen, and the units differ ignoring case; the factor is then the page's factor from receipt unit to base unit, and positive |
| GoodsReceipt.ScaleQuantity | app/Filament/Resources/GoodsReceiptNoteResource/Pages/CreateGoodsReceiptNote.php:35-37 | a blank quantity stays as it is; otherwise it becomes the converted quantity within half a thousandth |
| GoodsReceipt.ScalePrice | app/Filament/Resources/GoodsReceiptNoteResource/Pages/CreateGoodsReceiptNote.php:40-42 | a blank price stays as it is; otherwise it becomes the price per base unit within half a hundredth |
| GoodsReceipt.Recomputed | app/Filament/Resources/GoodsReceiptNoteResource/Pages/CreateGoodsReceiptNote.php:48-50 | with quantity and price both non-blank the total is their product within half a hundredth; otherwise the given total is kept |
| GoodsReceipt.BeforeSave | app/Filament/Resources/GoodsReceiptNoteResource/Pages/CreateGoodsReceiptNote.php:18-56 | the author is the current user; quantity and price are converted exactly when the conversion applies and are kept otherwise; the total is recomputed from the saved quantity and price; the resource is kept and the receipt unit dropped |
| GoodsReceipt.BeforeSaveDozenExample | app/Filament/Resources/GoodsReceiptNoteResource/Pages/CreateGoodsReceiptNote.php:18-56 | three dozen at 120 a dozen, for a resource counted in pieces, is saved as 36 pieces at 10 each, 360 in all |
| GoodsReceipt.DozenConversion | app/Filament/Resources/GoodsReceiptNoteResource/Pages/CreateGoodsReceiptNote.php:24-32 | a dozen converts to pieces by a factor of 12 on this page |
| GoodsReceipt.DozenScaled | app/Filament/Resources/GoodsReceiptNoteResource/Pages/CreateGoodsReceiptNote.php:35-42 | 3 dozen become 36.000 pieces, and 120 a dozen becomes 10.00 a piece |
| GoodsReceipt.DozenTotal | app/Filament/Resources/GoodsReceiptNoteResource/Pages/CreateGoodsReceiptNote.php:48-50 | 36 pieces at 10 total 360.00 |
| GrnLineItems.LineCreating | app/Models/GoodsReceiptNoteLineItem.php:24-42 | only the total changes; whenever the price is set, zero quantity included (the `decimal:3` cast reads any quantity as a truthy string), it becomes the product of quantity and price as their `decimal:3` and `decimal:2` casts read them, and everything is left as given when the price is null |
| GrnLineItems.CreatingTotal | app/Models/GoodsReceiptNoteLineItem.php:24-42 | with a price set, the created total is the quantity rounded to three decimals times the price rounded to two |
| GrnLineItems.CreatingAtCastPrecision | app/Models/GoodsReceiptNoteLineItem.php:24-42 | a quantity with three decimals and a price with two are read unchanged, so the created total is their exact product |
| GrnLineItems.ZeroQuantityCreating | app/Models/GoodsReceiptNoteLineItem.php:24-42 | a line of 0 units at 5.00 given a total of 7.00 is created with total 0, consistent with quantity and price |
| GrnLineItems.LineUpdating | app/Models/GoodsReceiptNoteLineItem.php:24-49 | only the total changes; nothing changes when neither quantity nor price differs from the stored version, and otherwise the total agrees with quantity and price as their casts read them |
| GrnLineItems.UpdatingKeepsTotal | app/Models/GoodsReceiptNoteLineItem.php:44-49 | an update that does not edit the total keeps a consistent total consistent |
| GrnLineItems.BaseQuantityPositive | app/Models/GoodsReceiptNoteLineItem.php:68-78 | the base quantity is positive exactly when the resource exists and the received quantity is positive |
| GrnLineItems.BaseQuantityKeepsValue | app/Models/GoodsReceiptNoteLineItem.php:68-78 | the base quantity at the price per base unit is worth what the line is worth in its receipt unit |
| GrnLineItems.DozenReceipt | app/Models/GoodsReceiptNoteLineItem.php:68-126 | as written, 3 dozen received for a resource counted in pieces are 3 pieces; with the count units converted they are 36 |
| InventoryLedger.PurchaseStep | app/Services/InventoryTransactionService.php:39-59 | a purchase is refused exactly when the quantity is not positive or the price is negative, the quantity check first; otherwise it is one well-formed entry |
| InventoryLedger.PurchaseEffect | app/Services/InventoryTransactionService.php:47-59 | a purchase raises the hub's stock of its resource by the quantity and its value by quantity times price, and moves no other stock |
| InventoryLedger.AverageAfterWithdrawal | app/Services/InventoryTransactionService.php:196 | taking stock out at the weighted average price leaves that average unchanged while some stock remains |
| InventoryLedger.AllocationStep | app/Services/InventoryTransactionService.php:183-235 | an allocation is refused for a non-positive quantity, or with the hub's stock when the hub holds less than asked; it goes through exactly when 0 < quantity <= hub stock, as well-formed entries |
| InventoryLedger.AllocationMoves | app/Services/InventoryTransactionService.php:199-235 | the quantity, valued at the hub's average price, leaves the hub and enters the project; every other stock is unchanged and the hub stays non-negative |
| InventoryLedger.AllocationConserves | app/Services/InventoryTransactionService.php:199-235 | an allocation leaves the system-wide stock and value of every resource unchanged |
| InventoryLedger.AllocationKeepsHubAverage | app/Services/InventoryTransactionService.php:196-215 | what stays at the hub keeps its average price |
| InventoryLedger.ConsumptionStep | app/Services/InventoryTransactionService.php:260-300 | consumption is refused for a non-positive quantity, or with the location's stock when it holds less than asked; it goes through exactly when 0 < quantity <= that stock, as one entry of type CONSUMPTION at a project or DIRECT_CONSUMPTION at the hub |
| InventoryLedger.ConsumptionEffect | app/Services/InventoryTransactionService.php:264-300 | the location loses the quantity and its value at the location's average price and stays non-negative; nothing else moves and the system loses exactly the quantity |
| InventoryLedger.ConsumptionKeepsAverage | app/Services/InventoryTransactionService.php:275 | what stays at the location keeps its average price |
| InventoryLedger.TransferStep | app/Services/InventoryTransactionService.php:325-382 | a transfer is refused for a non-positive quantity, then for the same project, then with the source's stock when too little is there; it goes through exactly when none of these holds |
| InventoryLedger.TransferMoves | app/Services/InventoryTransactionService.php:345-382 | the quantity, valued at the source's average price, moves from the source project to the destination project or the hub; nothing else moves and the source stays non-negative |
| InventoryLedger.TransferConserves | app/Services/InventoryTransactionService.php:345-382 | a transfer leaves the system-wide stock and value of every resource unchanged |
| InventoryLedger.TransferKeepsSourceAverage | app/Services/InventoryTransactionService.php:342-366 | what stays at the source keeps its average price |
| InventoryLedger.LineAcceptedIff | app/Services/InventoryTransactionService.php:86-94 | a line passes both checks exactly when it names a resource that exists and its quantity is positive |
| InventoryLedger.AcceptedUpTo | app/Services/InventoryTransactionService.php:84-94 | the search stops at the first refused line, and every line before it is accepted |
| InventoryLedger.AcceptedUpToIs | app/Services/InventoryTransactionService.php:84-94 | the first refused line, or the end, is where the search stops |
| InventoryLedger.ReceiptStep | app/Services/InventoryTransactionService.php:77-94 | a receipt is refused when the supplier or the lines are missing; it goes through exactly when the header is complete and every line is accepted |
| InventoryLedger.ReceiptWrites | app/Services/InventoryTransactionService.php:84-160 | a receipt that goes through writes exactly its result; a refused header writes nothing |
| InventoryLedger.PostedStep | app/Services/InventoryTransactionService.php:84-158 | one more accepted line appends its own entries after those of the lines before it |
| InventoryLedger.LineEntriesEffect | app/Services/InventoryTransactionService.php:96-157 | one accepted line leaves its base quantity and its invoiced value at the note's destination and nowhere else; the hub's receipt and allocation out cancel for a note with a project |
| InventoryLedger.PostedStock | app/Services/InventoryTransactionService.php:84-158 | a run of accepted lines adds, at the destination only, the base quantity they receive of each resource |
| InventoryLedger.PostedValue | app/Services/InventoryTransactionService.php:84-158 | a run of accepted lines adds, at the destination only, the invoiced value they receive of each resource |
| InventoryLedger.ReceiptEffect | app/Services/InventoryTransactionService.php:72-161 | a receipt that goes through raises the destination's stock of each resource by the base quantity received and its value by the invoiced value; every other stock is unchanged |
| InventoryLedger.SingleLineStock | app/Services/InventoryTransactionService.php:88-121 | a one-line receipt at the hub raises the hub's stock of the line's resource by the line's base quantity |
| InventoryLedger.DozenReceiptStock | app/Services/InventoryTransactionService.php:91 | 3 dozen received at the hub for a resource counted in pieces raise the hub's stock by 3 with the line item's own factor, and by 36 with the count group |
| InventoryLedger.ReceiptKeepsEarlierLines | app/Services/InventoryTransactionService.php:84-94 | when the second line is refused the call fails with that line's error, yet the first line's entries stay written |
| InventoryLedger.Ledger.RecordPurchase | app/Services/InventoryTransactionService.php:29-60 | the result is the purchase step's, and the ledger grows by exactly the entries it appends |
| InventoryLedger.Ledger.RecordAllocation | app/Services/InventoryTransactionService.php:175-236 | the result is the allocation step's on the ledger before the call, and the ledger grows by exactly its entries |
| InventoryLedger.Ledger.RecordConsumption | app/Services/InventoryTransactionService.php:251-301 | the result is the consumption step's on the ledger before the call, and the ledger grows by exactly its entry |
| InventoryLedger.Ledger.RecordTransfer | app/Services/InventoryTransactionService.php:316-383 | the result is the transfer step's on the ledger before the call, and the ledger grows by exactly its entries |
| InventoryLedger.Ledger.ReceiveWith | app/Services/InventoryTransactionService.php:72-161 | line by line, the result is the receipt step's and the ledger grows by what the receipt writes, the lines before a refused one included |
| InventoryLedger.Ledger.BookLine | app/Services/InventoryTransactionService.php:101-157 | one accepted line appends its receipt into the hub and, for a note with a project, its allocation in and out |
| InventoryLedger.Ledger.RecordGoodsReceipt | app/Services/InventoryTransactionService.php:72-161 | the receipt with count units converted as well as measures: the result is the receipt step's and the ledger grows by what it writes |
| InventoryLedger.Ledger.RecordGoodsReceiptAsWritten | app/Services/InventoryTransactionService.php:72-161 | the receipt as written, each line converted with its own factor (measures only): the result is the receipt step's with those factors, and the ledger grows by what it writes |
| InventoryLedger.Ledger.UpdateEntry | app/Models/InventoryTransaction.php:56-60 | updating a stored entry always fails |
| InventoryLedger.Ledger.DeleteEntry | app/Models/InventoryTransaction.php:63-67 | deleting a stored entry always fails |
| StockCalculator.Select | app/Services/StockCalculator.php:118-127 | the selected entries are no more than the ledger's and all pass the filter |
| StockCalculator.SelectOne | app/Services/StockCalculator.php:118-127 | from a single entry the query returns it exactly when the filter keeps it |
| StockCalculator.SelectConcat | app/Services/StockCalculator.php:118-127 | over a ledger written in two parts the query returns the first part's entries, then the second's, so ledger order is kept |
| StockCalculator.SelectMembers | app/Services/StockCalculator.php:118-127 | an entry is returned exactly when it is in the ledger and passes the filter |
| StockCalculator.SelectLength | app/Services/StockCalculator.php:118-127 | the query returns as many entries as the filter keeps |
| StockCalculator.SelectSum | app/Services/ReportingService.php:178-201 | a `sum()` over the returned collection is the sum over the ledger of the entries both filters keep |
| StockCalculator.SelectCount | app/Services/ReportingService.php:178-201 | a `count()` over a filter of the returned collection counts the ledger entries both filters keep |
| StockCalculator.TotalIn | app/Services/StockCalculator.php:64-77 | the day's incoming quantity is never negative |
| StockCalculator.TotalOut | app/Services/StockCalculator.php:87-100 | the day's outgoing quantity is the negated sum of the negative quantities, so never negative |
| StockCalculator.DaySplit | app/Services/StockCalculator.php:20-100 | the stock up to the end of a day is the stock before it plus the day's ins and outs |
| StockCalculator.OpeningIsPreviousClosing | app/Services/StockCalculator.php:20-54 | a day's opening balance is the previous day's closing balance |
| StockCalculator.DailyReport | app/Services/StockCalculator.php:110-139 | the closing figure is opening plus in minus out, and both movements are non-negative |
| StockCalculator.DailyReportCloses | app/Services/StockCalculator.php:110-139 | the report's computed closing figure equals the closing balance queried directly |
| StockCalculator.Resources | app/Services/StockCalculator.php:168 | the grouped resources are distinct, and a resource is among them exactly when some kept entry is of it |
| StockCalculator.StockHasEntry | app/Services/StockCalculator.php:163-171 | a non-zero sum has at least one kept entry behind it |
| StockCalculator.KeptItems | app/Services/StockCalculator.php:169 | every item is one of the given resources, at its positive closing quantity and its closing value, and every such resource has an item |
| StockCalculator.ValuationItems | app/Services/StockCalculator.php:149-182 | a resource is valued exactly when it is in scope and its closing balance is positive, and then at its closing quantity and value |
| StockCalculator.ItemsQuantityPositive | app/Services/StockCalculator.php:174 | a total of positive quantities is positive exactly when there is an item |
| StockCalculator.ValuationTotal | app/Services/StockCalculator.php:173-181 | the valuation's total quantity is positive exactly when some resource is valued |
| StockCalculator.PositiveStocks | app/Services/StockCalculator.php:263-277 | the listed stocks are distinct resources from the given ones, each at its positive stock, and every given resource with positive stock is listed |
| StockCalculator.ProjectResourceStocks | app/Services/StockCalculator.php:255-280 | a resource is listed exactly when its stock at the project is positive, once, with that stock |
| StockCalculator.StockedIsGrouped | app/Services/StockCalculator.php:257-260 | a resource with non-zero stock at a location is among the resources grouped there |
| Reporting.DailyReportsForAll | app/Services/ReportingService.php:23-35 | every report listed is the daily report of a catalogue resource that had opening stock or moved that day, and every such resource is listed |
| Reporting.Summary | app/Services/ReportingService.php:45-83 | the outgoing totals are reported non-negative, and every listed entry is of the location and within the period |
| Reporting.SummaryEntries | app/Services/ReportingService.php:47-55 | the summary lists exactly the ledger's entries of the location within the period, as many as the query counts |
| Reporting.SummaryEntriesInOrder | app/Services/ReportingService.php:47-55 | the listed entries keep ledger order |
| Reporting.SummaryIgnores | app/Services/ReportingService.php:47-55 | an entry outside the period or at another location changes nothing in the summary |
| Reporting.ValuedResources | app/Services/ReportingService.php:96-122 | every item is a catalogue resource with a positive closing balance, at that quantity and its closing value, with an average price that times the quantity gives the value; every such resource has an item |
| Reporting.AverageOf | app/Services/ReportingService.php:114 | the average price times the closing quantity is the total value |
| Reporting.ValuationReportCount | app/Services/ReportingService.php:124-130 | the report counts exactly the resources in stock at the end of the day |
| Reporting.LowStockReport | app/Services/ReportingService.php:140-166 | every item is a catalogue resource whose stock lies between 0 and the threshold, with its stock and the threshold, out of stock exactly when the stock is 0; every such resource is listed |
| Reporting.ConsumptionLines | app/Services/ReportingService.php:184-192 | one line per grouped resource, in order, with its count of entries and the absolute sums of its quantities and values, both non-negative |
| Reporting.ProjectConsumptionReport | app/Services/ReportingService.php:176-204 | the total consumed value is reported non-negative |
| Reporting.CountOfKept | app/Services/ReportingService.php:190 | a group's `count()` counts the entries of its resource |
| Reporting.ProjectConsumptionTotals | app/Services/ReportingService.php:178-203 | the total consumed value is the absolute summed value of the project's CONSUMPTION entries dated in the range, and the transaction count is how many such entries the ledger holds |
| Reporting.ConsumptionLineAt | app/Services/ReportingService.php:184-192 | a line carries the absolute summed quantity and value of its resource's CONSUMPTION entries of the project in the range, and their count |
| Reporting.ConsumptionLineFigures | app/Services/ReportingService.php:184-192 | every line carries those figures of its resource |
| Reporting.ConsumptionLineResources | app/Services/ReportingService.php:178-192 | there is a line for a resource exactly when the project consumed it in the range, and no resource has two lines |
| Reporting.ProjectConsumptionIgnores | app/Services/ReportingService.php:178-182 | an entry of another project, of another type or dated outside the range changes nothing in the report |
| Reporting.LineCountsAre | app/Services/ReportingService.php:184-192 | the lines' counts add up to the entry counts of their resources |
| Reporting.CountsOverAppend | app/Services/ReportingService.php:184 | one more entry adds one to the count of its resource's group |
| Reporting.CountOfAbsent | app/Services/ReportingService.php:184 | a resource without entries has no count |
| Reporting.GroupsCoverEntries | app/Services/ReportingService.php:184 | grouping by resource puts every entry in exactly one group |
| Reporting.ConsumptionCountsAddUp | app/Services/ReportingService.php:184-202 | the total transaction count is the sum of the per-resource counts |
| DailyExport.ResourceFigures | app/Exports/DailyConsumptionExport.php:82-91 | a row's total in is its three incoming kinds, its total out its three outgoing kinds, all outgoing figures non-negative, and its closing is opening plus in minus out |
| DailyExport.Collection | app/Exports/DailyConsumptionExport.php:29-146 | the loop with its ten running totals yields the sheet: the listed resource rows in candidate order and, when any, a summary row of their column sums |
| DailyExport.ColumnSumsBalanced | app/Exports/DailyConsumptionExport.php:94-103 | summing balanced rows column by column gives a balanced row |
| DailyExport.ResourceRowsBalanced | app/Exports/DailyConsumptionExport.php:71-122 | every resource row is balanced and marked as a resource row |
| DailyExport.SheetShape | app/Exports/DailyConsumptionExport.php:124-143 | every row of the sheet is balanced, and exactly the last one is the summary row |
| DailyExport.UncountedIgnored | app/Exports/DailyConsumptionExport.php:82-87 | an entry of a kind the export does not count, such as a direct consumption or a goods receipt, changes no figure of the day |
| DailyExport.DaySumByKind | app/Exports/DailyConsumptionExport.php:82-87 | when every entry of the day is of a counted kind, the day's summed quantity is the sum of the six per-kind sums |
| DailyExport.UpToIsBeforePlusDay | app/Exports/DailyConsumptionExport.php:48-54 | the stock up to the end of the day is the opening balance plus the day's entries |
| DailyExport.ClosingAgrees | app/Exports/DailyConsumptionExport.php:89-91 | when the day's entries are all of counted kinds and the outgoing ones are not positive, the row's closing figure is the closing balance |
| DailyExport.Title | app/Exports/DailyConsumptionExport.php:206-210 | the title is at most 31 characters, a prefix of code, a space and the date, and all of it when that fits |
| DailyInventoryReport.BalanceAsOf | app/Filament/Pages/DailyInventoryReport.php:221-255 | for a non-zero quantity the rate times the quantity is the value, and for a zero quantity the rate is 0 |
| DailyInventoryReport.BalanceStep | app/Filament/Pages/DailyInventoryReport.php:223-241 | the balance at the end of a day is the one at the end of the day before plus what the day books in scope |
| DailyInventoryReport.DaySplit | app/Filament/Pages/DailyInventoryReport.php:257-301 | when every entry of the day in scope is a counted movement, the day's sum is its incoming sum plus its outgoing sum |
| DailyInventoryReport.DaySuppliers | app/Filament/Pages/DailyInventoryReport.php:305-310 | the suppliers listed are distinct, and a name is listed exactly when some goods receipt of the resource that day carries it |
| DailyInventoryReport.SuppliersForDate | app/Filament/Pages/DailyInventoryReport.php:303-314 | the text is never empty; it is "-" when no receipt of the day names a supplier, and otherwise "-" or the names joined with ", " |
| DailyInventoryReport.ResourceReport | app/Filament/Pages/DailyInventoryReport.php:164-205 | a row exists exactly when the resource moved that day or its opening or closing quantity is non-zero; it carries the balances before and after the day, non-negative movement figures and the closing rate |
| DailyInventoryReport.RowCloses | app/Filament/Pages/DailyInventoryReport.php:166-180 | when every entry of the day in scope is a counted movement, the row's closing quantity is opening plus in minus out |
| DailyInventoryReport.RowValueCloses | app/Filament/Pages/DailyInventoryReport.php:166-180 | the same for values when no outgoing entry carries a positive value |
| DailyInventoryReport.TotalsClose | app/Filament/Pages/DailyInventoryReport.php:207-219 | totals of rows that close also close, and their outgoing columns are not negative |
| DailyInventoryReport.TotalsConcat | app/Filament/Pages/DailyInventoryReport.php:207-219 | the totals of rows written in two parts add up |
| DailyInventoryReport.Rows | app/Filament/Pages/DailyInventoryReport.php:151-158 | every row is a catalogue resource's own row, at most one per resource |
| DailyInventoryReport.RowsComplete | app/Filament/Pages/DailyInventoryReport.php:151-158 | every resource that is not quiet has its row |
| DailyInventoryReport.EmptyBuckets | app/Filament/Pages/DailyInventoryReport.php:119-121 | every selected project starts with an empty bucket, and there are no other buckets |
| DailyInventoryReport.AddResource | app/Filament/Pages/DailyInventoryReport.php:125-131 | adding one resource's rows keeps the set of buckets |
| DailyInventoryReport.FillBuckets | app/Filament/Pages/DailyInventoryReport.php:119-132 | after the loops there is a bucket for each selected project and no other |
| DailyInventoryReport.AddResourceEffect | app/Filament/Pages/DailyInventoryReport.php:125-131 | one resource adds to each selected project's bucket its row for that project, when it has one, and leaves other buckets alone |
| DailyInventoryReport.BucketsAreProjectRows | app/Filament/Pages/DailyInventoryReport.php:119-132 | with distinct projects selected, each project's bucket holds exactly that project's own report rows |
| DailyInventoryReport.Groups | app/Filament/Pages/DailyInventoryReport.php:135-146 | each group is a selected project with rows, with those rows and their totals, and every selected project with rows has a group |
| DailyInventoryReport.GroupedIsPerProject | app/Filament/Pages/DailyInventoryReport.php:114-148 | with several distinct projects selected, each group holds that project's own report |
| DailyInventoryReport.AddResourceRows | app/Filament/Pages/DailyInventoryReport.php:125-131 | the inner loop yields the buckets with one resource's rows added |
| DailyInventoryReport.FillProjectBuckets | app/Filament/Pages/DailyInventoryReport.php:119-132 | the nested loops yield the filled buckets |
| DailyInventoryReport.GroupsStep | app/Filament/Pages/DailyInventoryReport.php:136-146 | one more project adds its group when its bucket has rows and nothing otherwise |
| DailyInventoryReport.FormatGroups | app/Filament/Pages/DailyInventoryReport.php:135-146 | the formatting loop yields the groups |
| DailyInventoryReport.FlatRows | app/Filament/Pages/DailyInventoryReport.php:150-160 | the flat loop yields the rows of the hub or of the single project |
| DailyInventoryReport.BuildReport | app/Filament/Pages/DailyInventoryReport.php:108-162 | the report is grouped when more than one project is selected and flat otherwise |
| DailyInventoryReport.ReportPage.GenerateReport | app/Filament/Pages/DailyInventoryReport.php:81-106 | the form's date, or today when missing, and its projects, or none, become the selection, and the report is built for them |
| ResourceBatch.TotalValue | app/Models/ResourceBatch.php:33-36 | an empty batch is worth nothing, and a batch with a non-negative remainder and price is worth a non-negative amount |
| ResourceBatch.QuantityUsed | app/Models/ResourceBatch.php:38-41 | for a sound batch the used quantity lies between 0 and the purchased quantity; an emptied batch has used all of it and an untouched one none |
| ResourceBatch.BaseQuantity | app/Models/Resource.php:184 | a sound batch holds a non-negative base quantity, zero exactly when nothing remains |
| BatchInventory.SaveCheck | app/Models/Resource.php:40-51 | saving is refused exactly when a quantity or the price is negative, checked in the order total quantity, available quantity, price |
| BatchInventory.WeightedAverage | app/Models/Resource.php:94-111 | the average is 0 when no quantity remains, and otherwise times the remaining quantity gives the total value |
| BatchInventory.QuantityNonNegative | app/Models/Resource.php:129-135 | sound batches hold a non-negative base quantity, anywhere or at one location |
| BatchInventory.Insert | app/Models/Resource.php:239-243 | inserting a new batch grows the list by exactly one |
| BatchInventory.InsertElements | app/Models/Resource.php:239-243 | a new batch is added and nothing else changes in the list: every batch of the result is the new one or was there before |
| BatchInventory.InsertOrdered | app/Models/Resource.php:239-243 | a batch with a fresh, larger id goes where the ordered query will return it, so the list stays ordered by date and id |
| BatchInventory.InsertQuantity | app/Models/Resource.php:285-299 | an inserted batch adds its base quantity where it is held |
| BatchInventory.DivideBack | app/Models/Resource.php:264 | dividing what is taken by the batch's factor and multiplying back gives what was taken |
| BatchInventory.TakeFromAmounts | app/Models/Resource.php:248-282 | one batch gives up an exact portion of min(need, batch), none when it is out of scope or empty, and portion plus what is still needed is what was needed |
| BatchInventory.TakeFits | app/Models/Resource.php:261-279 | taking at most a batch's base quantity never drives it below zero |
| BatchInventory.ReducedBase | app/Models/Resource.php:278 | reducing a batch by the taken amount in its own unit lowers its base quantity by exactly that amount |
| BatchInventory.DeletedBase | app/Models/Resource.php:383-385 | a batch deleted as near-empty held what was taken from it and at most the tolerance more |
| BatchInventory.TakeFromBatches | app/Models/Resource.php:248-282 | one batch is kept sound with its key, untouched when nothing is taken, deleted only under the return rule, and emptied when the need exceeds it |
| BatchInventory.TakeFromQuantity | app/Models/Resource.php:254-282 | one batch loses exactly the portion taken at the locations it counts for, or up to the tolerance more when deleted |
| BatchInventory.Drain | app/Models/Resource.php:178-197 | nothing is touched when nothing is needed |
| BatchInventory.DrainUnfold | app/Models/Resource.php:248-282 | a drain is the first batch's step followed by the drain of the rest for what is still needed |
| BatchInventory.JoinedJoined | app/Models/Resource.php:248-282 | processed batches and portions accumulate in order |
| BatchInventory.Available | app/Models/Resource.php:254-258 | what a drain can take is never negative |
| BatchInventory.PortionsConcat | app/Models/Resource.php:267-275 | the amounts and slack of portions taken in two runs add up, and exact portions stay exact |
| BatchInventory.QuantityConcat | app/Models/Resource.php:132-135 | the base quantity of batches listed in two parts adds up |
| BatchInventory.DrainTakes | app/Models/Resource.php:172-197 | every portion taken is exact, and taken plus left over is what was asked for |
| BatchInventory.DrainLeft | app/Models/Resource.php:172-197 | nothing is left over exactly when the batches in scope hold enough, and otherwise the shortfall is |
| BatchInventory.KeptPrecedes | app/Models/Resource.php:239-282 | keeping the first batch before the drained rest keeps the keys and the order |
| BatchInventory.DrainSound | app/Models/Resource.php:178-197 | a drain never drives a batch below zero |
| BatchInventory.DrainKeys | app/Models/Resource.php:239-282 | a drain invents no batch and keeps the order |
| BatchInventory.DrainQuantity | app/Models/Resource.php:248-282 | a drain removes exactly the portions taken from the batches in scope, or up to the tolerance per portion more with deletions, and leaves other places unchanged |
| BatchInventory.DrainHead | app/Models/Resource.php:248-282 | a drain's batches are the first batch's remainder followed by the drain of the rest |
| BatchInventory.DrainPlaces | app/Models/Resource.php:178-197 | without deletions the batches keep their places, and only the remaining quantities of batches in scope change |
| BatchInventory.DrainOrder | app/Models/Resource.php:178-197 | a batch in scope is touched only once every earlier batch in scope is empty |
| BatchInventory.DrainFifo | app/Models/Resource.php:161-203 | first in, first out: places kept, only batches in scope reduced, and a batch touched only after every earlier one in scope is empty |
| BatchInventory.ConsumptionSpansBatches | app/Models/Resource.php:161-203 | from 30 kg at 45 then 50 kg at 50, consuming 60 empties the first batch, leaves 20 in the second and costs 2850 |
| BatchInventory.NewBatchBase | app/Models/Resource.php:285-299 | a batch made from an exact portion holds the portion's base amount |
| BatchInventory.ExactSplit | app/Models/Resource.php:285-299 | the portions before the last and the last are exact |
| BatchInventory.PortionsBaseLast | app/Models/Resource.php:285-299 | the amounts of the portions are those before the last plus the last |
| BatchInventory.PlacedStep | app/Models/Resource.php:285-299 | creating one more batch inserts it after those created before |
| BatchInventory.PlacedQuantity | app/Models/Resource.php:285-299 | the new batches add exactly the portions' base amounts at their location and nothing elsewhere |
| BatchInventory.PlacedSound | app/Models/Resource.php:285-299 | the new batches are sound, carry fresh ids and keep the order |
| BatchInventory.AvailableIsQuantity | app/Models/Resource.php:254-258 | for sound batches what a drain can take is what they hold, and one location holds no more than all of them |
| BatchInventory.ConsumeTakesAll | app/Models/Resource.php:161-203 | a consumption that the hub's quantity covers is taken in full, and all batches together lose exactly that |
| BatchInventory.TransferMoves | app/Models/Resource.php:222-315 | a transfer the hub covers moves exactly the quantity from the hub to the project and leaves every other place unchanged |
| BatchInventory.ReturnMoves | app/Models/Resource.php:332-425 | a return the project covers gives the hub exactly the quantity; the project loses it and at most the slack of deleted near-empty batches more, and no other place changes |
| BatchInventory.PlaceAll | app/Models/Resource.php:285-299 | the creation loop yields the portions as new batches with the next ids, in order |
| BatchInventory.TakeFromBatch | app/Models/Resource.php:248-282 | one loop iteration computes the batch's step |
| BatchInventory.DrainBatches | app/Models/Resource.php:178-197 | the drain loop with its break computes the drain |
| BatchInventory.IdsBelow | app/Models/Resource.php:239-282 | a drain keeps every batch id below the next id |
| BatchInventory.Resource.SyncQuantityFromBatches | app/Models/Resource.php:129-139 | the stored quantity becomes the hub's base quantity, non-negative for a valid store, and nothing else changes |
| BatchInventory.Resource.ConsumeQuantityFifo | app/Models/Resource.php:161-203 | refused with the stored quantity, changing nothing, unless it covers the request; otherwise every active batch is drained oldest first, the cost of what was taken is returned and the stored quantity is resynced |
| BatchInventory.Resource.PlaceBatches | app/Models/Resource.php:285-299 | the portions become batches at the location with the next ids, and the store stays valid |
| BatchInventory.Resource.TransferToProject | app/Models/Resource.php:222-315 | refused for a non-positive quantity or a short hub, changing nothing; otherwise the hub's batches are drained oldest first, the portions become project batches, the move is recorded and the quantity resynced |
| BatchInventory.Resource.ReturnToHub | app/Models/Resource.php:332-425 | refused for a non-positive quantity or a short project, changing nothing; otherwise the project's batches are drained oldest first with near-empty ones deleted, the portions become hub batches, the move is recorded and the quantity resynced |
| BatchInventory.Resource.SyncQuantityFromBatchesAsWritten | app/Models/Resource.php:129-139 | as written, the call to the undefined `centralHub` scope fails, and nothing is assigned or saved |
| BatchInventory.Resource.ConsumeQuantityFifoAsWritten | app/Models/Resource.php:161-203 | as written: refused as in the intended method when the stored quantity is short; otherwise the batches are drained and saved, then the sync fails, so the batches are reduced while the stored quantity keeps its old value |
| BatchInventory.Resource.TransferToProjectAsWritten | app/Models/Resource.php:222-245 | as written: the sign and hub checks as in the intended method, then the undefined `centralHub` query fails before anything is written |
| BatchInventory.Resource.ReturnToHubAsWritten | app/Models/Resource.php:332-345 | as written: after the sign check the undefined `forProject` query fails before anything is written |
| BatchInventory.StaleHubQuantity | app/Models/Resource.php:193-200 | on hub batches of 30 and 50 in sync at 80, the drain of a consumption of 60 leaves the hub's batches at 20, which the failed sync never stores |
| BulkRows.Kept | app/Filament/Pages/BulkAddResources.php:117-119 | the rows kept are complete, in form order, each with its own form position |
| BulkRows.KeptAll | app/Filament/Pages/BulkAddResources.php:117-128 | no complete row is dropped, so nothing is kept exactly when no row is complete |
| BulkRows.PassStep | app/Filament/Pages/BulkAddResources.php:135-151 | one more row is created, or skipped with its message when its key is already stored |
| BulkRows.PassCounts | app/Filament/Pages/BulkAddResources.php:135-151 | every kept row is either created or skipped, and the store only grows, by one of the rows' records per name reported as created |
| BulkRows.PassKeys | app/Filament/Pages/BulkAddResources.php:137-148 | the pass keeps keys unique, and afterwards every kept row's key is stored |
| BulkRows.PassSkipped | app/Filament/Pages/BulkAddResources.php:138 | each skip message names one kept row by its 1-based position and its key |
| BulkAddResources.RecordOf | app/Filament/Pages/BulkAddResources.php:142-148 | the resource created carries the row's name, SKU, category and base unit, and its description or null |
| BulkAddResources.Candidates | app/Filament/Pages/BulkAddResources.php:135-150 | each kept row becomes one candidate reported by its name, at its form position |
| BulkAddResources.Catalogue.constructor | app/Filament/Pages/BulkAddResources.php:142-148 | an empty catalogue satisfies the unique SKU index |
| BulkAddResources.Catalogue.Submit | app/Filament/Pages/BulkAddResources.php:111-152 | no complete row changes nothing; otherwise the complete rows are created in order, a row whose SKU is already stored or was created earlier is skipped with its message, and the SKUs stay unique |
| BulkAddResources.DuplicateSkus | app/Filament/Pages/BulkAddResources.php:117-151 | against a catalogue holding CEM-001: the row naming it is skipped, an incomplete row is dropped, a new SKU is created and a row repeating it is skipped |
| BulkAddResources.PassExample | app/Filament/Pages/BulkAddResources.php:135-151 | the pass over three candidates creates only the one with a new SKU |
| BulkAddResources.KeptExample | app/Filament/Pages/BulkAddResources.php:117-119 | an incomplete row is dropped and the others keep their form positions |
| BulkAddResources.SkippedMessage | app/Filament/Pages/BulkAddResources.php:138 | the fourth row is reported as Row 4 |
| BulkAddProjects.RecordOf | app/Filament/Pages/BulkAddProjects.php:130-137 | the project created carries the row's name, code, status and start date, and its end date and description or null |
| BulkAddProjects.Candidates | app/Filament/Pages/BulkAddProjects.php:123-139 | each kept row becomes one candidate reported by its name, at its form position |
| BulkAddProjects.ProjectRegister.constructor | app/Filament/Pages/BulkAddProjects.php:130-137 | an empty register satisfies the unique code index |
| BulkAddProjects.ProjectRegister.Submit | app/Filament/Pages/BulkAddProjects.php:99-141 | no complete row changes nothing; otherwise the complete rows are created in order, a row whose code is already stored or was created earlier is skipped with its message, and the codes stay unique |
| BulkAddProjects.RepeatedCode | app/Filament/Pages/BulkAddProjects.php:105-141 | two rows with one code on an empty register: the first is created, the second is skipped as Row 3, and the blank row between them is dropped |
| BulkAddProjects.SecondSkipped | app/Filament/Pages/BulkAddProjects.php:123-139 | a second candidate with a stored code is skipped |
| BulkAddGrn.FirstMissing | app/Filament/Pages/BulkAddGRN.php:152-162 | the first kept row whose resource does not exist, every row before it naming one that does |
| BulkAddGrn.FirstMissingIs | app/Filament/Pages/BulkAddGRN.php:152-162 | when the first i rows name existing resources and row i does not, row i is the first missing |
| BulkAddGrn.ThisYear | app/Filament/Pages/BulkAddGRN.php:174 | a year never has more notes than are stored |
| BulkAddGrn.ThisYearStep | app/Filament/Pages/BulkAddGRN.php:174 | a new note adds one to its own year's count only |
| BulkAddGrn.LineFor | app/Filament/Pages/BulkAddGRN.php:164-190 | the line carries the row's resource, quantity and price, the receipt unit defaults to the base unit, and the total is the quantity rounded to three decimals times the price rounded to two, as the creating hook reads them |
| BulkAddGrn.RowWritesStock | app/Filament/Pages/BulkAddGRN.php:192-198 | a row's note books its base quantity into the hub when its quantity is positive and nothing otherwise, and no project's stock moves |
| BulkAddGrn.Notes | app/Filament/Pages/BulkAddGRN.php:173-180 | one note per kept row |
| BulkAddGrn.Lines | app/Filament/Pages/BulkAddGRN.php:182-190 | one line item per kept row |
| BulkAddGrn.PrefixReady | app/Filament/Pages/BulkAddGRN.php:152-162 | rows before a point also name existing resources |
| BulkAddGrn.NotesStep | app/Filament/Pages/BulkAddGRN.php:173-180 | one more row appends its note, numbered next |
| BulkAddGrn.LinesStep | app/Filament/Pages/BulkAddGRN.php:182-190 | one more row appends its line item, linked to its own note |
| BulkAddGrn.BookingsStep | app/Filament/Pages/BulkAddGRN.php:192-198 | one more row appends what its note books |
| BulkAddGrn.BookingsStock | app/Filament/Pages/BulkAddGRN.php:151-202 | a submission raises every resource's hub stock by the base quantities of its positive rows and leaves every project's stock alone |
| BulkAddGrn.HubReceivedNonNegative | app/Filament/Pages/BulkAddGRN.php:151-202 | a submission never lowers a stock |
| BulkAddGrn.NumberAt | app/Filament/Pages/BulkAddGRN.php:173-180 | the i-th note of a submission is numbered i after this year's earlier notes |
| BulkAddGrn.NumbersDistinct | app/Filament/Pages/BulkAddGRN.php:173-180 | the notes of one submission all get different numbers |
| BulkAddGrn.AdvanceNotes | app/Filament/Pages/BulkAddGRN.php:173-180 | one more received row keeps the stored notes in step with the rows |
| BulkAddGrn.AdvanceLines | app/Filament/Pages/BulkAddGRN.php:182-190 | one more received row keeps the stored line items in step with the rows |
| BulkAddGrn.AdvanceEntries | app/Filament/Pages/BulkAddGRN.php:192-198 | one more received row keeps the ledger in step with the rows |
| BulkAddGrn.GrowReady | app/Filament/Pages/BulkAddGRN.php:159-162 | a row whose resource exists extends the rows that name existing resources |
| BulkAddGrn.LinkedStep | app/Filament/Pages/BulkAddGRN.php:183-185 | a line item for the newest note keeps every line attached to a stored note |
| BulkAddGrn.Advance | app/Filament/Pages/BulkAddGRN.php:152-201 | one more row whose resource exists keeps notes, line items and ledger in step with the rows |
| BulkAddGrn.RolledBack | app/Filament/Pages/BulkAddGRN.php:159-162 | a row naming a missing resource reports that resource and leaves notes, line items and ledger as they were before the transaction |
| BulkAddGrn.Committed | app/Filament/Pages/BulkAddGRN.php:151-202 | once every row is received, the outcome is the committed one |
| BulkAddGrn.BookRow | app/Filament/Pages/BulkAddGRN.php:192-198 | the ledger gains exactly what the service writes for the row's note, whatever the service reports |
| BulkAddGrn.NewNote | app/Filament/Pages/BulkAddGRN.php:174-180 | the note created is numbered by the creating hook from this year's count |
| BulkAddGrn.ReceiveRow | app/Filament/Pages/BulkAddGRN.php:152-201 | one loop iteration receives a row and keeps the progress |
| BulkAddGrn.ReceiptBook.constructor | app/Filament/Pages/BulkAddGRN.php:151 | empty tables with every line attached to a note |
| BulkAddGrn.ReceiptBook.ReceiveAll | app/Filament/Pages/BulkAddGRN.php:151-202 | all or nothing: the first row naming a missing resource is reported and notes, line items and ledger are unchanged; otherwise every row has its note, line item and ledger entries |
| BulkAddGrn.ReceiptBook.Submit | app/Filament/Pages/BulkAddGRN.php:125-202 | no complete row changes nothing; a missing resource rolls back and is reported; otherwise every complete row is received and counted, numbered on from this year's notes |
| BulkAddGrn.UnitOptionsFor | app/Filament/Pages/BulkAddGRN.php:229-246 | no options until an existing resource is chosen, then the receipt units for its base unit |
| BulkAddGrn.ExactTotal | app/Filament/Pages/BulkAddGRN.php:183-190 | a row without a unit is received in the base unit, and 2.5 at 3.333 is totalled by the hook as 2.500 times 3.33, that is 8.325, not the page's 8.33 |

## Left out

- Input and output are not modelled. This covers the item-list script's CSV reading and writing and its console summary, including the top-15 list of unmapped units.
- Filament's forms, tables, labels, option-map labels and notifications are not modelled, except the messages the bulk pages collect. The form validation that `getState()` runs before the loop (app/Filament/Pages/BulkAddResources.php:113 and app/Filament/Pages/BulkAddProjects.php:101) is not modelled: its `required` and `unique` rules (app/Filament/Pages/BulkAddResources.php:37-45, app/Filament/Pages/BulkAddProjects.php:38-46) abort a submission with an incomplete row or an already stored SKU or code before the loop runs. `BulkAddResources.DuplicateSkus`, `BulkAddProjects.SecondSkipped` and the stored-key skip in `Submit` therefore describe the loop itself; on the page only repeats within one submission reach the "already exists" skip.
- The spreadsheet export's headings, styles and cell formats are not modelled. Its title is modelled.
- The clock and the session are parameters of the operations that read them: today, the current year and the logged-in user.
- The database is modelled as the model's own fields and maps. Its queries, timestamps and exceptions are not modelled, except where an operation turns an exception into a result.
- The ledger's order stands for `created_at` order. Operations that read timestamps (`getMovementHistory`, `getStockAtDateTime`) are not modelled, because entries carry no clock time.
- Quantities and prices are exact reals. Floating-point rounding in PHP and decimal column truncation are not modelled; PHP's `round` to decimal places is.
- `Text.Lower` folds ASCII letters only. Python's `lower` and PHP's `strtolower` on other characters are not modelled.
- `Text.PhpEmpty` treats only `""` and `"0"` as empty strings, which is what PHP does. A numeric form field is empty when null or zero. This covers form state only: a model attribute read through a `decimal` cast is a string such as "0.000", which is truthy, so a line item's creating hook treats a zero quantity as present.
- `getUnitsUsedAttribute` on the resource, and the pages' relation lookups for display, are not modelled.
- `saveQuietly` becomes a plain field update, because the model has no model events to silence.
- BatchInventory.Resource.ConsumeQuantityFifo: batches with the same purchase date are ordered by id. The query orders by date only, so how it breaks ties is left to the database.
- Batch numbers, batch notes, and the transfer record's notes, author and time are not modelled. The transfer record keeps the two locations, the quantity and the kind of transfer.
- BatchInventory.ReturnMoves: the project's loss is bounded by the tolerance of the near-empty batches that are deleted, rather than stated batch by batch.
- BulkAddResources.Catalogue.Submit and BulkAddProjects.ProjectRegister.Submit: a database error inside the transaction is not modelled. Such an error would roll back and report; the model has no such error.
- BulkAddGrn.NumbersDistinct: numbers are shown distinct within one submission, over this year's count. Deleting notes is not modelled. Because the numbering counts this year's notes, it can repeat a number once a note is deleted.
- BulkAddGrn.LineFor, GrnLineItems.LineCreating and BulkAddGrn.ExactTotal: the hook's total is stated before it is stored; the `total_value` column then keeps two decimals, and that rounding by the database is not modelled.
- BulkAddGrn.RowWritesStock, BulkAddGrn.BookingsStock and BulkAddGrn.BookRow: the service reads each line item back from columns of three and two decimals (database/migrations/2026_02_13_000001_create_goods_receipt_note_line_items_table.php:18-21). The model hands it the line item with quantity and price as the row gives them, so a value with more decimals than its column is booked unrounded.
- GoodsReceipt.BeforeSave: the create page extends `CreateRecord` (app/Filament/Resources/GoodsReceiptNoteResource/Pages/CreateGoodsReceiptNote.php:14), yet its methods at lines 18 and 58 carry the edit page's hook names, `mutateFormDataBeforeSave` and `afterSave`, where a create page calls `mutateFormDataBeforeCreate` and `afterCreate`. Filament is not part of this model, so whether the create page runs them is not settled here (not executed). The model states what the methods do when they are called.
- GRN numbers are held as their year and count. The rendered string is `GoodsReceipt.GrnNumber`, and no parser of stored numbers is modelled.
- InventoryLedger.Ledger.RecordGoodsReceipt: books count units (dozen, pair and the like) with the corrected factors. The source uses the line item's own factor, which leaves them unconverted; see the dozen row under "## Findings". The booking as written is `InventoryLedger.Ledger.RecordGoodsReceiptAsWritten`, and `GrnLineItems.BaseQuantity` keeps the line item's own conversion.
- BulkAddGrn.RowWritesStock: states the ledger effect of a row (`RowWrites`, `RowReceived`) with the corrected count factors. As written, a row received in a count unit books its quantity unconverted.
- BulkAddGrn.BookingsStock and BulkAddGrn.BookRow: book through the corrected receipt for the same reason. The as-written booking differs only for rows received in count units.
- BulkAddGrn.ReceiptBook.ReceiveAll and BulkAddGrn.ReceiptBook.Submit: reach the ledger through `InventoryLedger.Ledger.RecordGoodsReceipt`, so they inherit its corrected count factors.
- BatchInventory.Resource.PlaceBatches, BatchInventory.Resource.TransferToProject and BatchInventory.Resource.ReturnToHub: the new batches are taken to carry their location, unit and factor. `ResourceBatch::create` is called with `project_id`, `unit_type` and `conversion_factor`, but the batch model's mass-assignable list (app/Models/ResourceBatch.php:10-19) names none of them, so Eloquent would drop them silently. The model assumes they are assigned.
- BulkAddResources.RecordOf: the created resource is taken to carry its base unit. `base_unit` is not in the resource model's mass-assignable list (app/Models/Resource.php:16-25), so `Resource::create` would drop it. The model assumes it is assigned.
- Text.Prefix and DailyExport.Title: count characters. PHP's `substr` counts bytes (app/Exports/DailyConsumptionExport.php:209), so a project code with non-ASCII characters is cut at a different place, possibly inside a character.

## Findings

| source | as written | input that shows it | evidently intended | confidence | as-written member | corrected member |
|---|---|---|---|---|---|---|
| app/Models/GoodsReceiptNoteLineItem.php:83-126 | the line item's conversion factor knows only the weight, volume, length and area groups, so a receipt in dozens or pairs for a resource counted in pieces falls back to factor 1 | 3 dozen received for a resource whose base unit is `piece` | a dozen is 12 pieces and a pair 2, as in the conversion tables of the resource pages and the GRN create page, so 3 dozen book as 36 pieces | not executed | UnitConversion.LineFactorIgnoresCounts, GrnLineItems.DozenReceipt, InventoryLedger.Ledger.RecordGoodsReceiptAsWritten, InventoryLedger.DozenReceiptStock | UnitConversion.CorrectedCounts, UnitConversion.CorrectedLineFactorInverse, InventoryLedger.Ledger.RecordGoodsReceipt |
| app/Models/Resource.php:129-139 | `syncQuantityFromBatches` (line 133) and `transferToProject` (line 240) call a `centralHub` scope, and `returnToHub` (line 340) a `forProject` scope, on the batches relation; the batch model (app/Models/ResourceBatch.php:1-42) defines no scope, so each call would fail with an undefined method. `consumeQuantityFifo` has saved its reduced batches before its closing sync fails | any transfer the hub covers; any return of a positive quantity; a consumption of 60 from hub batches of 30 and 50 in sync at 80, after which the batches hold 20 while the stored quantity still says 80 | the scopes select the hub's batches (`project_id` null) and one project's batches, as the comments at those lines and the transfer tests say, so that the sync, the transfer and the return complete | not executed | BatchInventory.Resource.SyncQuantityFromBatchesAsWritten, BatchInventory.Resource.ConsumeQuantityFifoAsWritten, BatchInventory.Resource.TransferToProjectAsWritten, BatchInventory.Resource.ReturnToHubAsWritten, BatchInventory.StaleHubQuantity | BatchInventory.Resource.SyncQuantityFromBatches, BatchInventory.Resource.ConsumeQuantityFifo, BatchInventory.Resource.TransferToProject, BatchInventory.Resource.ReturnToHub |

## Behaviour kept as written

- `recordGoodsReceipt` runs in no transaction of its own. Lines before the first refused line keep their entries even though the call fails (`InventoryLedger.ReceiptKeepsEarlierLines`).
- `consumeQuantityFifo` checks the stored hub quantity, then drains every active batch, at the hub or at a project.
- `returnToHub`, with its `forProject` scope read as intended, deletes a project batch that falls below 0.001 and counts the deleted rest as taken.
- The bulk GRN page catches and logs errors from the transaction service. A refused booking still creates its note and line item.
- The daily inventory report's supplier query ignores the project filter.
