# OIBProject perfume shop services, modelled in Dafny

This project models the parts of the OIBProject microservices that hold logic rather than
HTTP and database plumbing. It proves what each of them guarantees.

- **Sales microservice.**
  - The storage service dispatches packages from a storage. The caller's role picks the storage
    type. The capacity is checked, packages arrive in timed batches from the processing service,
    and the requested count is then taken off the capacity. Capacity updates are clamped at zero.
    The service is a class over the storage table, with the batch loop and a simulated clock.
  - The sales service prices a sale (1000 RSD retail, 850 wholesale), builds its one-line receipt
    and appends it to the receipt store.
  - The sales controller's request checks are pure functions that return 400/404 or the call
    they pass on.
  - The database seeder inserts three storages into an empty table.
- **Analytics microservice.**
  - The aggregation takes per-perfume sums over all line items. It runs as the nested loops of the
    source, proved against a reference aggregate.
  - The top-10 lists are sorted descending, cut at ten and ranked.
  - It also models the totals, the average and the twelve-month breakdown.
  - The fiscal receipt service numbers receipts `FR-YYYYMMDD-NNNN` and stores them.
  - The receipt PDF's text helpers: payment and sale-type labels, line totals and both date formats.
- **Performance microservice.** The report PDF's Serbian-to-ASCII transliteration and algorithm
  names, and the controller's request checks.
- **Log microservice.** The log table as a class: add, update a description, delete, and the
  search with optional filters.

Modules follow the source files:

| module | file |
|---|---|
| `Wrappers` | `Option` and `Result` |
| `Http` | a handler's answer, and JavaScript truthiness of request fields |
| `Text` | decimal rendering and parsing, `padStart`, `join` |
| `Storages` | the storage entity and table |
| `StorageDispatch` | the storage service |
| `Seeding` | the seeder |
| `Receipts` | the fiscal receipt and line item entities |
| `Sales`, `SalesApi` | the sales service and its controller |
| `Analytics` | the analytics service |
| `FiscalReceipts` | the fiscal receipt service |
| `ReceiptPdf`, `PerformancePdf` | the two PDF services |
| `PerformanceApi` | the performance controller |
| `Logs` | the log service |

Conventions:

- **Request fields.** A request field is an `Option`: `None` stands for undefined or null. JavaScript
  falsiness (an empty string, 0) is spelled out as `Truthy` and `TruthyNumber`.
- **Path parameters.** A `parseInt` of a path parameter is an `Option<int>`, with `None` for NaN.
- **Enums.** Enum values are strings. Each controller's enum value list is a parameter.
- **Ports.** The processing service's packaging call is a total function
  `(storage id, call index, count) -> Option<packages>`, with `None` for a thrown error.
- **Time.** The current time, today's calendar fields and midnight are inputs, and the storage
  service's delay advances a `clock` field.
- **Randomness.** The random base-36 string from `Math.random` is an input.

## Model

| member | source | states |
|---|---|---|
| Storages.IndexOfId | infrastructure/microservices/sales-microservice/src/Services/StorageService.ts:119-123 | the index of the row with the id, or None exactly when no row has it |
| Storages.IndexOfOwnId | infrastructure/microservices/sales-microservice/src/Services/StorageService.ts:119 | with unique ids, looking up a row's own id finds that row |
| Storages.FirstOfType | infrastructure/microservices/sales-microservice/src/Services/StorageService.ts:22-24 | the first row of the type (findOne's pick), or None exactly when no row has that type |
| Storages.StorageRepository.Insert | infrastructure/microservices/sales-microservice/src/Services/StorageService.ts:106-108 | save appends the row with the next generated id; ids stay unique |
| Storages.StorageRepository.Update | infrastructure/microservices/sales-microservice/src/Services/StorageService.ts:139 | save of an existing row replaces that row only |
| StorageDispatch.PackagesPerDelivery | infrastructure/microservices/sales-microservice/src/Services/StorageService.ts:44 | 3 packages per delivery for a distribution centre, 1 for a warehouse; always positive |
| StorageDispatch.DeliveryTime | infrastructure/microservices/sales-microservice/src/Services/StorageService.ts:45 | 500 ms for a distribution centre, 2500 ms for a warehouse; always positive |
| StorageDispatch.DeliveriesIsCeiling | infrastructure/microservices/sales-microservice/src/Services/StorageService.ts:48 | the delivery count is the ceiling of n / b: enough deliveries and not one more |
| StorageDispatch.BatchPlanShape | infrastructure/microservices/sales-microservice/src/Services/StorageService.ts:57-70 | against a port that returns what it is asked, one request per delivery, the requests sum to n, all but the last equal b, each between 1 and b |
| StorageDispatch.BatchPlanExamples | infrastructure/microservices/sales-microservice/src/Services/StorageService.ts:44-70 | 7 packages from a distribution centre are asked as [3, 3, 1] over 1500 ms; 4 from a warehouse as [1, 1, 1, 1] over 10000 ms |
| StorageDispatch.FetchReplies | infrastructure/microservices/sales-microservice/src/Services/StorageService.ts:57-76 | the batch loop returns the in-order concatenation of the port's replies, or stops at the first failed request |
| StorageDispatch.StorageService.FetchBatches | infrastructure/microservices/sales-microservice/src/Services/StorageService.ts:57-76 | the loop ends with the batch function's packages and requests, and the clock advances one delivery time per request made |
| StorageDispatch.FetchAsks | infrastructure/microservices/sales-microservice/src/Services/StorageService.ts:60-63 | every request asks min(b, n − packages received before it), request by request |
| StorageDispatch.ApplyIncrement | infrastructure/microservices/sales-microservice/src/Services/StorageService.ts:125-137 | capacity becomes old + increment, clamped at 0 from below and not above the maximum; no other field changes |
| StorageDispatch.DispatchFailureChangesNothing | infrastructure/microservices/sales-microservice/src/Services/StorageService.ts:26-41 | a failed dispatch leaves every storage unchanged |
| StorageDispatch.DispatchWithoutStorage | infrastructure/microservices/sales-microservice/src/Services/StorageService.ts:26-32 | no storage of the role's type: error, no request made, no time spent, table unchanged |
| StorageDispatch.DispatchInsufficient | infrastructure/microservices/sales-microservice/src/Services/StorageService.ts:35-41 | capacity below the requested count: error before any delivery, table unchanged |
| StorageDispatch.DispatchSuccess | infrastructure/microservices/sales-microservice/src/Services/StorageService.ts:17-79 | MANAGER is served by the first distribution centre, anyone else by the first warehouse; on success exactly that row loses the requested n, all others are kept, ceil(n/b) requests are made and deliveries × delay ms pass |
| StorageDispatch.DispatchReturnsReplies | infrastructure/microservices/sales-microservice/src/Services/StorageService.ts:60-86 | the returned packages are the port's replies in order, each request sized min(b, n − received) |
| StorageDispatch.DispatchWithExactPort | infrastructure/microservices/sales-microservice/src/Services/StorageService.ts:57-86 | with enough capacity and an exact port the dispatch succeeds, asks the batch plan and returns n packages |
| StorageDispatch.DispatchPortFailure | infrastructure/microservices/sales-microservice/src/Services/StorageService.ts:65-93 | a failing port call ends the dispatch with an error, no capacity change, and the time of the deliveries started |
| StorageDispatch.UpdateCapacityKeepsNonNegative | infrastructure/microservices/sales-microservice/src/Services/StorageService.ts:127-131 | non-negative capacities stay non-negative under every update |
| StorageDispatch.UpdateCapacityMayExceedMaximum | infrastructure/microservices/sales-microservice/src/Services/StorageService.ts:133-137 | the maximum is not enforced: 250 of 500 topped up by 300 gives 550 |
| StorageDispatch.StorageService.GetStorageById | infrastructure/microservices/sales-microservice/src/Services/StorageService.ts:101-104 | the row with that id, or None exactly when no row has it |
| StorageDispatch.StorageService.CreateStorage | infrastructure/microservices/sales-microservice/src/Services/StorageService.ts:106-116 | appends one row with the next id and the given fields |
| StorageDispatch.StorageService.UpdateStorageCapacity | infrastructure/microservices/sales-microservice/src/Services/StorageService.ts:118-140 | unknown id: error and table unchanged; otherwise the table is the capacity update of the old one |
| StorageDispatch.StorageService.SendPackagingFromStorage | infrastructure/microservices/sales-microservice/src/Services/StorageService.ts:14-94 | result, new table and clock advance are those of the dispatch; the loop keeps its request and reply invariants |
| Seeding.SeedContents | infrastructure/microservices/sales-microservice/src/Database/InitializeConnection.ts:24-51 | a non-empty table is left alone; an empty one gets exactly the three storages (500/250 distribution, 300/150 warehouse, 400/200 distribution) with consecutive ids |
| Seeding.SeedIdempotent | infrastructure/microservices/sales-microservice/src/Database/InitializeConnection.ts:24-57 | seeding twice gives the same table as seeding once |
| Seeding.SeededWithinCapacity | infrastructure/microservices/sales-microservice/src/Database/InitializeConnection.ts:33-49 | every seeded storage has 0 ≤ current ≤ maximum |
| Seeding.SeedInitialData | infrastructure/microservices/sales-microservice/src/Database/InitializeConnection.ts:19-63 | the table after the count-then-save loop is the seed of the old table |
| Receipts.FindById | infrastructure/microservices/sales-microservice/src/Services/SalesService.ts:91-94 | the receipt with that id, or None exactly when none has it |
| Receipts.InsertByDate | infrastructure/microservices/sales-microservice/src/Services/SalesService.ts:84-89 | inserting into a date-descending list keeps it descending and adds exactly that receipt |
| Receipts.ByDateDesc | infrastructure/microservices/sales-microservice/src/Services/SalesService.ts:84-89 | a permutation of the receipts ordered by sale date, newest first |
| Sales.PricingRule | infrastructure/microservices/sales-microservice/src/Services/SalesService.ts:35-38 | 1000 for RETAIL, 850 for WHOLESALE (0.85 of retail), 1000 for any other type |
| Sales.ToUpper | infrastructure/microservices/sales-microservice/src/Services/SalesService.ts:52 | uppercasing keeps length and maps each letter a-z to upper case, other characters unchanged |
| Sales.RandomSuffix | infrastructure/microservices/sales-microservice/src/Services/SalesService.ts:52 | the suffix has at most 6 characters, exactly 6 for a long enough random string, and no lower-case letter |
| Sales.SaleReceiptNumberFields | infrastructure/microservices/sales-microservice/src/Services/SalesService.ts:52 | the number reads FR-, the timestamp in decimal (which reads back to it), -, the suffix |
| Sales.SaleReceiptShape | infrastructure/microservices/sales-microservice/src/Services/SalesService.ts:35-62 | one line item (perfume id 0, serial as serial and name, quantity, unit price), total = price × quantity, sale fields copied |
| Sales.SalesService.ProcessSale | infrastructure/microservices/sales-microservice/src/Services/SalesService.ts:17-81 | a failed save changes nothing and forwards nothing; otherwise exactly one receipt is appended and then forwarded to analysis |
| Sales.SalesService.GetAllReceipts | infrastructure/microservices/sales-microservice/src/Services/SalesService.ts:84-89 | all receipts, as a permutation, sale date descending |
| Sales.SalesService.GetReceiptById | infrastructure/microservices/sales-microservice/src/Services/SalesService.ts:91-94 | the receipt with that id, or None exactly when none has it |
| SalesApi.ValidateSale | infrastructure/microservices/sales-microservice/src/WebAPI/controllers/SalesController.ts:38-77 | 400 for a falsy field, then an unknown sale type, then an unknown payment method, then a negative quantity, each iff earlier checks passed; otherwise 201 with seller defaulted to none and role to SELLER |
| SalesApi.GetReceiptById | infrastructure/microservices/sales-microservice/src/WebAPI/controllers/SalesController.ts:111-134 | 400 iff the id is NaN, 404 iff no receipt has it, otherwise 200 with that receipt |
| SalesApi.GetStorageById | infrastructure/microservices/sales-microservice/src/WebAPI/controllers/SalesController.ts:179-201 | 400 iff the id is NaN, 404 iff no storage has it, otherwise 200 with that storage |
| SalesApi.ValidateCreateStorage | infrastructure/microservices/sales-microservice/src/WebAPI/controllers/SalesController.ts:216-242 | 400 for a falsy name, location or maximum, or a negative maximum; otherwise 201 and an empty storage with the given fields, warehouse by default |
| SalesApi.ValidateCapacityUpdate | infrastructure/microservices/sales-microservice/src/WebAPI/controllers/SalesController.ts:256-278 | 400 for a NaN id, then for an undefined or NaN increment; otherwise 200 with both values |
| SalesApi.ValidateSendPackaging | infrastructure/microservices/sales-microservice/src/WebAPI/controllers/SalesController.ts:291-316 | 400 for a falsy or non-positive package count, then for an empty role; otherwise 200 with both |
| Analytics.IndexOfSerial | infrastructure/microservices/analytics-microservice/src/Services/AnalyticsService.ts:304-313 | the position of a serial in the statistics, None exactly when it is absent |
| Analytics.AddSpec | infrastructure/microservices/analytics-microservice/src/Services/AnalyticsService.ts:304-313 | recording one line item adds its quantity and quantity × price to its serial only, keeps serials unique, and names a new serial after the item |
| Analytics.AddNewSerial | infrastructure/microservices/analytics-microservice/src/Services/AnalyticsService.ts:306-311 | a new serial is appended as a fresh entry at the end |
| Analytics.AddKnownSerial | infrastructure/microservices/analytics-microservice/src/Services/AnalyticsService.ts:304-305 | a known serial's entry is updated in place; every other entry is kept |
| Analytics.AggIsExact | infrastructure/microservices/analytics-microservice/src/Services/AnalyticsService.ts:300-314 | per serial: present iff it occurs, total quantity and revenue are sums over all its line items, name from its first occurrence |
| Analytics.AggEntries | infrastructure/microservices/analytics-microservice/src/Services/AnalyticsService.ts:300-314 | every entry of the statistics has a serial that was sold and holds exactly that serial's totals and first-seen name |
| Analytics.OccursInReceipts | infrastructure/microservices/analytics-microservice/src/Services/AnalyticsService.ts:302-303 | a serial occurs among the flattened line items iff some receipt sold it |
| Analytics.Aggregate | infrastructure/microservices/analytics-microservice/src/Services/AnalyticsService.ts:300-314 | the nested forEach loops compute exactly the aggregate of all line items of all receipts |
| Analytics.RecordItems | infrastructure/microservices/analytics-microservice/src/Services/AnalyticsService.ts:303-313 | the inner loop extends the aggregate by one receipt's items |
| Analytics.Record | infrastructure/microservices/analytics-microservice/src/Services/AnalyticsService.ts:304-313 | one iteration of the inner loop is one Add |
| Analytics.InsertDesc | infrastructure/microservices/analytics-microservice/src/Services/AnalyticsService.ts:318 | insertion keeps the list non-increasing and adds exactly the new entry |
| Analytics.SortDesc | infrastructure/microservices/analytics-microservice/src/Services/AnalyticsService.ts:318 | a permutation, non-increasing by the key |
| Analytics.Rank | infrastructure/microservices/analytics-microservice/src/Services/AnalyticsService.ts:320-325 | rank = index + 1, entries in order |
| Analytics.Top10 | infrastructure/microservices/analytics-microservice/src/Services/AnalyticsService.ts:317-325 | min(10, n) entries of the statistics, ranked 1.., non-increasing, drawn from the statistics without repetition (a sub-multiset); any unlisted entry is at most the last listed |
| Analytics.TopTenListed | infrastructure/microservices/analytics-microservice/src/Services/AnalyticsService.ts:300-325 | every listed serial was sold in some receipt and carries its exact totals |
| Analytics.TopTenDistinct | infrastructure/microservices/analytics-microservice/src/Services/AnalyticsService.ts:317-325 | over statistics with unique serials no serial is listed twice |
| Analytics.TopTenComplete | infrastructure/microservices/analytics-microservice/src/Services/AnalyticsService.ts:317-319 | a sold but unlisted serial totals no more than the last listed one |
| Analytics.TopBestSelling | infrastructure/microservices/analytics-microservice/src/Services/AnalyticsService.ts:295-325 | at most 10 ranked entries by quantity, each a sold serial with its summed quantity, no serial listed twice |
| Analytics.TopRevenue | infrastructure/microservices/analytics-microservice/src/Services/AnalyticsService.ts:359-395 | at most 10 ranked entries by revenue with summed revenue and quantity; no serial listed twice; the top-10 total is the sum of the listed revenues |
| Analytics.Average | infrastructure/microservices/analytics-microservice/src/Services/AnalyticsService.ts:189-195 | 0 with no transactions, otherwise the value that times the count gives the total |
| Analytics.Summary | infrastructure/microservices/analytics-microservice/src/Services/AnalyticsService.ts:27-29 | transactions = number of receipts, total = sum of amounts, average 0 for none |
| Analytics.MonthLabelFields | infrastructure/microservices/analytics-microservice/src/Services/AnalyticsService.ts:32 | YYYY-MM: the year, a dash, the month as two digits that read back to it |
| Analytics.Breakdown | infrastructure/microservices/analytics-microservice/src/Services/AnalyticsService.ts:137-149 | exactly 12 entries, month i + 1 at position i |
| Analytics.BreakdownAddsUp | infrastructure/microservices/analytics-microservice/src/Services/AnalyticsService.ts:133-149 | the 12 monthly counts add up to the number of receipts and the monthly sales to the total |
| Analytics.TotalSalesAppend | infrastructure/microservices/analytics-microservice/src/Services/AnalyticsService.ts:133 | the total of two lists of receipts is the sum of their totals |
| FiscalReceipts.SequencePart | infrastructure/microservices/analytics-microservice/src/Services/FiscalReceiptService.ts:83 | count + 1 in decimal, padded to 4 digits and never cut: longer than 4 from 10000 on |
| FiscalReceipts.ReceiptNumberFields | infrastructure/microservices/analytics-microservice/src/Services/FiscalReceiptService.ts:68-85 | FR-, the year, month and day as two digits each, -, the sequence part, each field at its position |
| FiscalReceipts.ReceiptNumberInjective | infrastructure/microservices/analytics-microservice/src/Services/FiscalReceiptService.ts:68-85 | on one day distinct counts give distinct numbers |
| FiscalReceipts.CountAtMidnight | infrastructure/microservices/analytics-microservice/src/Services/FiscalReceiptService.ts:77-81 | as written: counts only receipts stamped exactly at midnight |
| FiscalReceipts.MidnightCountRepeatsNumber | infrastructure/microservices/analytics-microservice/src/Services/FiscalReceiptService.ts:74-85 | as written: with no receipt exactly at midnight the count is 0, so the day's first number is handed out again |
| FiscalReceipts.MidnightCountCounterexample | infrastructure/microservices/analytics-microservice/src/Services/FiscalReceiptService.ts:74-85 | a receipt at 10:00 numbered FR-20261014-0001 is followed by the same number |
| FiscalReceipts.FirstNumberOfDay | infrastructure/microservices/analytics-microservice/src/Services/FiscalReceiptService.ts:68-85 | the first number of 14 October 2026 is FR-20261014-0001 |
| FiscalReceipts.CountToday | infrastructure/microservices/analytics-microservice/src/Services/FiscalReceiptService.ts:72-81 | corrected: counts the receipts with todayStart ≤ date < todayEnd |
| FiscalReceipts.CountTodayGivesFreshNumber | infrastructure/microservices/analytics-microservice/src/Services/FiscalReceiptService.ts:67-85 | with the corrected count the next number is not yet taken when the day's receipts are numbered 1..count |
| FiscalReceipts.NumberingPreserved | infrastructure/microservices/analytics-microservice/src/Services/FiscalReceiptService.ts:13-85 | saving that receipt keeps the day's receipts numbered 1..count |
| FiscalReceipts.FindByNumber | infrastructure/microservices/analytics-microservice/src/Services/FiscalReceiptService.ts:62-65 | the receipt with that number, None exactly when none has it, and the only one when numbers are unique |
| FiscalReceipts.AppendKeepsUnique | infrastructure/microservices/analytics-microservice/src/Services/FiscalReceiptService.ts:33 | appending a receipt with a fresh number keeps numbers unique |
| FiscalReceipts.NewReceipt | infrastructure/microservices/analytics-microservice/src/Services/FiscalReceiptService.ts:23-31 | the saved receipt carries the sale fields unchanged, the generated number, and the sale date or else now |
| FiscalReceipts.FiscalReceiptService.CreateFiscalReceipt | infrastructure/microservices/analytics-microservice/src/Services/FiscalReceiptService.ts:13-85 | as written: numbered with the midnight-only count; a taken number is an error with nothing saved, so with no receipt at midnight and the day's first number already stored the call fails |
| FiscalReceipts.FiscalReceiptService.CreateFiscalReceiptCorrected | infrastructure/microservices/analytics-microservice/src/Services/FiscalReceiptService.ts:13-85 | corrected: numbered with the count of today's receipts; under the day's numbering the save succeeds, and a receipt dated today keeps the numbering |
| FiscalReceipts.FiscalReceiptService.Save | infrastructure/microservices/analytics-microservice/src/Services/FiscalReceiptService.ts:33 | a taken receipt number fails and changes nothing; otherwise the receipt is appended under the next id, ids stay below the counter and numbers stay unique |
| FiscalReceipts.FiscalReceiptService.GetAllReceipts | infrastructure/microservices/analytics-microservice/src/Services/FiscalReceiptService.ts:50-55 | all receipts, as a permutation, sale date descending |
| FiscalReceipts.FiscalReceiptService.GetReceiptById | infrastructure/microservices/analytics-microservice/src/Services/FiscalReceiptService.ts:57-60 | the receipt with that id, or None exactly when none has it |
| FiscalReceipts.FiscalReceiptService.GetReceiptByNumber | infrastructure/microservices/analytics-microservice/src/Services/FiscalReceiptService.ts:62-65 | the receipt with that number, or None exactly when none has it; at most one matches |
| ReceiptPdf.PaymentMethodText | infrastructure/microservices/analytics-microservice/src/Services/PDFService.ts:187-194 | CASH, CARD and MIXED get their Serbian labels, every other method is printed unchanged |
| ReceiptPdf.PaymentMethodTextInjective | infrastructure/microservices/analytics-microservice/src/Services/PDFService.ts:187-194 | distinct methods print distinct texts, unless a method is itself spelled like a label |
| ReceiptPdf.SaleTypeLabel | infrastructure/microservices/analytics-microservice/src/Services/PDFService.ts:26 | Maloprodaja iff RETAIL, Veleprodaja otherwise |
| ReceiptPdf.SaleReceiptLinesAddUp | infrastructure/microservices/analytics-microservice/src/Services/PDFService.ts:50-65 | on a receipt from the sales service the printed line totals add up to the printed total |
| ReceiptPdf.ShortFormIsPrefix | infrastructure/microservices/analytics-microservice/src/Services/PDFService.ts:196-211 | the short date is the long date up to the space before the time |
| ReceiptPdf.FormatDateFields | infrastructure/microservices/analytics-microservice/src/Services/PDFService.ts:196-204 | DD.MM.YYYY. HH:MM:SS: 20 characters, two-digit fields, month = getMonth + 1; the performance report's formatDate at infrastructure/microservices/performance-microservice/src/Services/PDFService.ts:121-129 is the same |
| PerformancePdf.AsciiChar | infrastructure/microservices/performance-microservice/src/Services/PDFService.ts:15-22 | each of the ten letters maps to its base letter keeping case, nothing else changes, and no result is one of the ten |
| PerformancePdf.ToAsciiPointwise | infrastructure/microservices/performance-microservice/src/Services/PDFService.ts:22 | same length; each position holds the image of the original character |
| PerformancePdf.ToAsciiClean | infrastructure/microservices/performance-microservice/src/Services/PDFService.ts:22 | no Serbian letter remains |
| PerformancePdf.ToAsciiKeeps | infrastructure/microservices/performance-microservice/src/Services/PDFService.ts:22 | text without those letters comes back unchanged |
| PerformancePdf.ToAsciiIdempotent | infrastructure/microservices/performance-microservice/src/Services/PDFService.ts:14-23 | applying it twice is applying it once |
| PerformancePdf.ToAsciiAppend | infrastructure/microservices/performance-microservice/src/Services/PDFService.ts:46-47 | transliterating a label followed by a value transliterates each part |
| PerformancePdf.AlgorithmName | infrastructure/microservices/performance-microservice/src/Services/PDFService.ts:110-119 | the two known types get fixed names, any other is printed unchanged |
| PerformancePdf.AlgorithmNameInjective | infrastructure/microservices/performance-microservice/src/Services/PDFService.ts:110-119 | distinct types print distinct names unless a type is spelled like a name |
| PerformanceApi.ValidateRunSimulation | infrastructure/microservices/performance-microservice/src/WebAPI/controllers/PerformanceController.ts:14-44 | 400 for a falsy type or count, then an unknown type, then a count outside 1..1000, each iff earlier checks passed; otherwise 201 with the simulation call |
| PerformanceApi.FindReport | infrastructure/microservices/performance-microservice/src/WebAPI/controllers/PerformanceController.ts:75 | the first report with that id, None exactly when none has it |
| PerformanceApi.GetReportById | infrastructure/microservices/performance-microservice/src/WebAPI/controllers/PerformanceController.ts:67-81 | 400 iff the id is NaN, 404 iff no report has it, otherwise 200 with that report |
| PerformanceApi.ValidateReportsByAlgorithmType | infrastructure/microservices/performance-microservice/src/WebAPI/controllers/PerformanceController.ts:91-105 | 400 iff the type is unknown, otherwise 200 and the type passed on |
| PerformanceApi.DownloadReportPdf | infrastructure/microservices/performance-microservice/src/WebAPI/controllers/PerformanceController.ts:115-133 | the same 400 and 404 answers, otherwise 200 with the report and its file name |
| PerformanceApi.ReportFileNameFields | infrastructure/microservices/performance-microservice/src/WebAPI/controllers/PerformanceController.ts:132 | performance-report-, the id in decimal that reads back to it, .pdf |
| PerformanceApi.ReportFileNameInjective | infrastructure/microservices/performance-microservice/src/WebAPI/controllers/PerformanceController.ts:132 | distinct ids download under distinct names |
| Logs.SelectExact | infrastructure/microservices/log-microservice/src/Services/LogService.ts:43 | a row is returned iff it is in the table and meets every condition |
| Logs.SelectBounds | infrastructure/microservices/log-microservice/src/Services/LogService.ts:43-53 | never more rows than the table; with no condition the whole table |
| Logs.Conditions | infrastructure/microservices/log-microservice/src/Services/LogService.ts:34-42 | no condition exactly when no filter argument is given |
| Logs.ConditionsMeaning | infrastructure/microservices/log-microservice/src/Services/LogService.ts:34-42 | a row meets the query iff its type equals a given non-empty type and its ts lies within the given bounds, both inclusive |
| Logs.WithoutExact | infrastructure/microservices/log-microservice/src/Services/LogService.ts:26-29 | after delete a row remains iff it was there and has another id |
| Logs.WithoutCount | infrastructure/microservices/log-microservice/src/Services/LogService.ts:26-29 | with unique ids, deleting a present id removes exactly one row, an absent id changes nothing |
| Logs.WithDescription | infrastructure/microservices/log-microservice/src/Services/LogService.ts:21-24 | same length; the row with that id has only its description changed, all other rows kept |
| Logs.UpdateKeepsIds | infrastructure/microservices/log-microservice/src/Services/LogService.ts:21-24 | updating keeps every id and their uniqueness |
| Logs.LogService.AddLog | infrastructure/microservices/log-microservice/src/Services/LogService.ts:10-19 | appends exactly one entry with the next id, the time, type and description |
| Logs.LogService.UpdateLog | infrastructure/microservices/log-microservice/src/Services/LogService.ts:21-24 | the table becomes its description update; ids stay valid |
| Logs.LogService.DeleteLog | infrastructure/microservices/log-microservice/src/Services/LogService.ts:26-29 | the table becomes the old one without that id, order kept; ids stay valid |
| Logs.LogService.SearchLogs | infrastructure/microservices/log-microservice/src/Services/LogService.ts:31-54 | exactly the table rows, in order, meeting every given filter; all rows with no filter |
| Text.NatToString | infrastructure/microservices/analytics-microservice/src/Services/AnalyticsService.ts:32 | decimal digits, no leading zero, one digit iff below 10 |
| Text.ParseNatToString | infrastructure/microservices/analytics-microservice/src/Services/AnalyticsService.ts:32 | reading the decimal rendering back gives the number |
| Text.PadStartParses | infrastructure/microservices/analytics-microservice/src/Services/FiscalReceiptService.ts:83 | padStart with zeros keeps the value and gives at least the width |
| Text.Pad2 | infrastructure/microservices/analytics-microservice/src/Services/FiscalReceiptService.ts:70-71 | two digits for values below 100, reading back to the value |
| Text.IntToStringInjective | infrastructure/microservices/performance-microservice/src/WebAPI/controllers/PerformanceController.ts:132 | distinct integers print differently |

## Left out

- Logging (`communicationService.logEvent`, `console.log`): it never changes the modelled state, and
  its errors are swallowed by the communication service.
- **Forwarding to analysis.** It is recorded as the `forwarded` list of `SalesService`. The network
  call itself is not modelled.
- Network, database and Express plumbing: routes, JWT, connection pools and the `500` error
  answers. Repository calls are modelled as operations on sequences. A failed save is a boolean
  input of `ProcessSale`.
- Concurrency: each call is modelled on its own. The race between the capacity check and the
  decrement across parallel dispatches cannot show in a sequential model.
- **JavaScript dates.** `new Date`, `getMonth` and the other field accessors, and the `Between`
  ranges. Dates are integers, and the calendar fields are given. The month of a receipt is a
  function parameter (`monthOf`).
- **Not modelled in `AnalyticsService`:** `calculateSalesByWeek`, `getDateOfWeek`,
  `analyzeSalesTrend`, the report persistence and the report getters. They are date arithmetic,
  float averages and repository reads.
- **Floats.** `toFixed`, `parseFloat`, `Number(...)` on decimal columns and float averages are not
  modelled. Money is an integer, and `Average` is an exact rational.
- **PDF rendering** (pdfkit), and `toNumber` in the performance PDF service. Only the text helpers
  are modelled.
- **Duplicate `formatDate`.** The performance PDF service's `formatDate` has the same text as the
  receipt PDF service's, so it is modelled once, as `ReceiptPdf.FormatDate`.
- **The storage service injected into `SalesService`.** It is never called there, so no link between
  sales and storage capacity is modelled.
- **Ties in the top-10 sort.** The order of equal keys is not stated. The model's insertion sort is
  stable, but the contracts only say "non-increasing".
- **Seeding errors.** A save that fails midway leaves a partly seeded table. The model takes every
  save as succeeding.
- **Partial batch results.** `Fetch` returns the packages already received on a failure, but the
  dispatch throws them away, as the source does.
- **Contracts stated in place of the source's wording:**
  - `StorageDispatch.FetchReplies` and `StorageDispatch.DispatchReturnsReplies` speak of any port,
    exact or not.
  - The request count equals the batch plan only for a port that returns exactly what it is asked
    (`DispatchWithExactPort`).
- `Logs.LogService.SearchLogs`: a time bound is an `Option<int>`. An absent or empty query
  parameter is `None`. Converting a query string to a timestamp happens in the database and is
  not modelled.
- `Logs.LogService.AddLog`: the creation time `ts` is filled in by the database, and here it is the
  `now` argument.

**Behaviour of the code worth knowing:**

- `processSale` does not look the perfume up in a catalog and does not check or reserve stock
  before the sale. It prices a unit at a fixed 1000, or 850 for `WHOLESALE`
  (SalesService.ts:35-40). The helper `calculateBasePrice` (SalesService.ts:115) is never
  called and is not modelled.
- The storage service decrements the capacity only after the batch loop has finished
  (StorageService.ts:57-79), so a failed batch leaves the capacity unchanged.
  `StorageDispatch.DispatchPortFailure` states this.

## Findings

| source | as written | input that shows it | evidently intended | confidence | as-written member | corrected member |
|---|---|---|---|---|---|---|
| infrastructure/microservices/analytics-microservice/src/Services/FiscalReceiptService.ts:74-81 | the day's count matches `saleDate` equal to midnight exactly and ignores `todayEnd`, so receipts stamped later in the day are not counted and the next number repeats an existing one (the number column is unique, so the save fails) | no receipt at midnight, one receipt at 10:00 on 2026-10-14 numbered `FR-20261014-0001`: the count is 0 and the next number is `FR-20261014-0001` again | count the receipts with `todayStart ≤ saleDate < todayEnd` | not executed | `FiscalReceipts.MidnightCountCounterexample` (with `FiscalReceipts.CountAtMidnight`, `FiscalReceipts.MidnightCountRepeatsNumber`, `FiscalReceipts.FiscalReceiptService.CreateFiscalReceipt`) | `FiscalReceipts.NumberingPreserved` (with `FiscalReceipts.CountToday`, `FiscalReceipts.CountTodayGivesFreshNumber`, `FiscalReceipts.FiscalReceiptService.CreateFiscalReceiptCorrected`) |
