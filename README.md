# Fish-market ledger: a Dafny model

The application is a small ERP for a fish market. A single data store holds six lists:
customers, parties (suppliers and buyers), products, sales (invoices), purchases and fish boxes.
Its interface adds, updates and deletes records by identifier. It gives each new record a fresh
identifier and, except for fish boxes, a creation time. The pages read these lists and compute
views from them:

- Dashboard: the headline cards, recent sales and the low-stock panel.
- Inventory: the low-stock alert, product margins and the product editor.
- Billing: the invoice editor, its preview totals and the invoice it submits.
- Sales summary: product and customer rankings, category breakdown and the time series.
- Reports: monthly sales and purchases, the top products, retention and profit margin.
- Sales register: the date, search and status filters and their totals. The register's average
  sale (src/pages/SalesRegister.tsx:125) and its paid, pending and partial breakdown
  (src/pages/SalesRegister.tsx:223-238) are `Ledger.AverageOrderValue` and `Ledger.StatusPartition`
  applied to `SalesRegister.FilteredSales`.
- Daily collection sheet: one day's sales split by payment status.
- Statement: one customer's sales in a date window, with a running balance.
- Salesman receivables: what each customer still owes and which accounts are overdue.
- Fish boxes sent and received: the shipment and receipt editors and the box views.

The model has these modules:

- `Seqs`, `Sorting` and `Tallies`: the generic pieces. These are filtering, summing, taking a
  prefix, a stable descending sort, and a keyed tally that remembers first-insertion order.
  The tally stands for the JavaScript object used as a dictionary.
- `Clock`: UTC days, weekdays and month indices of millisecond timestamps.
- `Ledger`: the six record types, the update-by-identifier and delete-by-identifier operations,
  and the sales aggregates shared by several pages.
- `DataStore`: the store itself. It is a class whose methods change its six lists in place.
- One module per page. The editors that keep state between events are classes: `ProductEditor`,
  `InvoiceForm`, `ShipmentEditor` and `ReceiptEditor`. The computations are functions, or methods
  where the page runs a loop.
- `ProductTally`: the per-product reduction that the sales summary and the reports share.

Money is `real`, quantities are `int` and timestamps are `int` milliseconds since the epoch.
Three values the program gets from its environment are parameters here: a new identifier, the
current time, and the user's answer to a confirmation.

## Model

| member | source | states |
|---|---|---|
| DataStore.Store.constructor | src/context/DataContext.tsx:195-210 | the store starts with the six lists it is given (the persisted state) |
| DataStore.Store.AddCustomer | src/context/DataContext.tsx:236-243 | the customer is appended with the new identifier and creation time; the other five lists are unchanged |
| DataStore.Store.UpdateCustomer | src/context/DataContext.tsx:245-249 | every customer with the identifier is merged with the patch; nothing else changes |
| DataStore.Store.DeleteCustomer | src/context/DataContext.tsx:251-253 | customers with the identifier are removed; nothing else changes |
| DataStore.Store.AddParty | src/context/DataContext.tsx:255-262 | the party is appended with the new identifier and time; nothing else changes |
| DataStore.Store.UpdateParty | src/context/DataContext.tsx:264-268 | every party with the identifier is merged with the patch; nothing else changes |
| DataStore.Store.DeleteParty | src/context/DataContext.tsx:270-272 | parties with the identifier are removed; nothing else changes |
| DataStore.Store.AddProduct | src/context/DataContext.tsx:274-281 | the product is appended with the new identifier and time; nothing else changes |
| DataStore.Store.UpdateProduct | src/context/DataContext.tsx:283-287 | every product with the identifier is merged with the patch; nothing else changes |
| DataStore.Store.DeleteProduct | src/context/DataContext.tsx:289-291 | products with the identifier are removed; nothing else changes |
| DataStore.Store.AddSale | src/context/DataContext.tsx:293-300 | the sale is appended with the new identifier and time; nothing else changes |
| DataStore.Store.AddPurchase | src/context/DataContext.tsx:302-309 | the purchase is appended with the new identifier and time; nothing else changes |
| DataStore.Store.AddFishBox | src/context/DataContext.tsx:311-317 | the box is appended with the new identifier and no creation time; nothing else changes |
| DataStore.Store.UpdateFishBox | src/context/DataContext.tsx:319-323 | every box with the identifier is merged with the patch; nothing else changes |
| DataStore.Store.Apply | src/context/DataContext.tsx:83-103 | any one interface call keeps earlier sales and purchases as a prefix and never shrinks the fish boxes |
| DataStore.Store.ApplyAll | src/context/DataContext.tsx:83-103 | any sequence of interface calls keeps recorded sales and purchases as a prefix and loses no fish box (the ledger is append-only) |
| DataStore.AddThenRename | src/context/DataContext.tsx:236-249 | adding a customer and then updating it by its new identifier yields the added customer with the new name |
| Ledger.UpdateById | src/context/DataContext.tsx:245-249 | the length is kept; each element with the identifier is merged with the patch and every other element is unchanged |
| Ledger.DeleteById | src/context/DataContext.tsx:251-253 | no element with the identifier survives, and every element without it does |
| Ledger.UpdateAbsentIsNoOp | src/context/DataContext.tsx:245-249 | updating an identifier nobody has changes nothing |
| Ledger.DeleteAbsentIsNoOp | src/context/DataContext.tsx:251-253 | deleting an identifier nobody has changes nothing |
| Ledger.DeleteIdempotent | src/context/DataContext.tsx:289-291 | deleting twice is the same as deleting once |
| Ledger.DeleteKeepsOrder | src/context/DataContext.tsx:251-253 | the remaining records keep their order, and the identifier is gone |
| Ledger.AppendFreshKeepsUnique | src/context/DataContext.tsx:236-243 | appending a record under a fresh identifier keeps identifiers unique |
| Ledger.UpdateKeepsUnique | src/context/DataContext.tsx:245-249 | a patch that does not change identifiers keeps them unique |
| Ledger.DeleteKeepsUnique | src/context/DataContext.tsx:270-272 | deleting keeps identifiers unique |
| Ledger.AddThenUpdate | src/context/DataContext.tsx:236-249 | updating a just-added record by its identifier changes only that last record |
| Ledger.MergeCustomerKeepsIdentity | src/context/DataContext.tsx:245-249 | a patch without identifier or time keeps both, takes each field the patch gives and keeps each it omits |
| Ledger.MergeOverwritesId | src/context/DataContext.tsx:247 | the spread lets a patch replace the identifier or creation time: they stay exactly when the patch omits them or repeats them |
| Ledger.AverageOrderValue | src/pages/SalesSummary.tsx:133-135 | 0 with no sales; otherwise the value times the number of sales is the revenue |
| Ledger.UniqueCustomersBounded | src/pages/SalesSummary.tsx:136 | the unique-customer count is at most the number of sales, and at least 1 when there is a sale |
| Ledger.SalesOfAppend | src/pages/SalesmanReceivable.tsx:10 | a customer's sales in two concatenated lists are their sales in each, in order |
| Ledger.StatusPartition | src/pages/Statement.tsx:21-24 | paid, pending and partial sales partition the sales, both in count and in amount |
| Ledger.UnpaidIsPendingAndPartial | src/pages/SalesmanReceivable.tsx:11-12 | "not paid" is exactly pending plus partial, in count and in amount |
| Ledger.UnpaidBounded | src/pages/SalesmanReceivable.tsx:11-13 | with non-negative totals, what is unpaid is between 0 and the total sold |
| Ledger.RevenueOrderIndependent | src/pages/Dashboard.tsx:27 | total revenue does not depend on the order of the sales |
| Clock.DayBounds | src/pages/DailyCollectionSheet.tsx:11-15 | an instant lies between its day's midnight and the next |
| Clock.DayOfInstant | src/pages/DailyCollectionSheet.tsx:11-15 | an instant is on day d exactly when it lies in d's 24-hour interval |
| Clock.Weekday | src/pages/SalesSummary.tsx:37 | the weekday is in 0..6 |
| Clock.WeekdayNextDay | src/pages/SalesSummary.tsx:37 | a day later the weekday advances by one, modulo 7 |
| Clock.WeekdayWeekLater | src/pages/SalesSummary.tsx:36-37 | a week later the weekday is the same |
| Clock.DayShift | src/pages/SalesSummary.tsx:54 | moving n whole days moves the day number by n |
| Clock.EpochMonth | src/pages/Reports.tsx:24-25 | 1 January 1970 is in month 0 of 1970 |
| Clock.March1970Month | src/pages/Reports.tsx:24-25 | day 59 (1 March 1970) is in March 1970 |
| Clock.LeapDay2024Month | src/pages/Reports.tsx:24-25 | 29 February 2024 is in February 2024 |
| Clock.March2024Month | src/pages/Reports.tsx:24-25 | the day after it is in March 2024 |
| Tallies.Bump | src/pages/Reports.tsx:44-52 | the key gets the step applied to its old or initial value, no other key changes, and the key order stays valid |
| Tallies.Values | src/pages/Reports.tsx:56 | the values are listed in key order, one per key present |
| Tallies.ValuesOfValid | src/pages/Reports.tsx:56 | for a valid tally, the values listed are exactly the stored values, one per key |
| Sorting.SortDesc | src/pages/Reports.tsx:57 | the result is sorted by descending key and is a permutation of the input |
| Sorting.SortDescMembers | src/pages/Reports.tsx:57 | sorting neither adds nor loses an element |
| Sorting.SortDescHeadIsMax | src/pages/SalesmanReceivable.tsx:98-100 | the first sorted element has the largest key |
| Sorting.TopN | src/pages/Reports.tsx:56-58 | the first n after sorting are exactly min(n, number of inputs) input elements that together occur no more often than in the input (all of them when there are no more than n), in descending order, and no left-out element beats any kept one |
| Sorting.SortDescStable | src/pages/Reports.tsx:57 | elements with equal keys keep their input order, as the stable `Array.prototype.sort` keeps them |
| ProductTally.TallyLinesSpec | src/pages/SalesSummary.tsx:78-92 | the tally has exactly the products sold, each with the quantity, revenue and sale count of its own lines |
| ProductTally.TallyLinesValid | src/pages/SalesSummary.tsx:78-92 | the tally's key order lists each key once |
| ProductTally.TallyLinesKeys | src/pages/SalesSummary.tsx:78-92 | a product is a key exactly when some line sells it |
| ProductTally.TallyLinesValues | src/pages/SalesSummary.tsx:78-92 | each key's entry equals the statistics of that product's own lines |
| ProductTally.TallyLinesSnoc | src/pages/SalesSummary.tsx:79-91 | tallying one more line is one bump of the tally |
| ProductTally.TallySaleLines | src/pages/SalesSummary.tsx:80-90 | the inner loop over a sale's lines extends the tally by exactly those lines |
| ProductTally.TallyProducts | src/pages/SalesSummary.tsx:78-92 | the nested loop computes the tally of every line of every sale |
| ProductTally.ProductRowDrawn | src/pages/SalesSummary.tsx:94 | every row drawn is the statistics of a product that was sold |
| ProductTally.ProductRowShown | src/pages/SalesSummary.tsx:94 | every product sold has its row |
| ProductTally.TopProductRowsSpec | src/pages/SalesSummary.tsx:94-100 | the first n rows of the product table by revenue satisfy `IsTopProductRows`: exactly min(n, number of different products sold) rows, by descending revenue, each the row of a sold product, a sub-multiset of the product rows (all of them, so every sold product, when there are at most n), and no product left out earned more than one shown |
| SalesSummary.ProductPerformance | src/pages/SalesSummary.tsx:75-101 | the ten best products by revenue: the top rows of the product tally, satisfying `IsTopProductRows` with n = 10 (min(10, number of products sold) rows, sorted, each sold, no row repeated beyond the tally, every product when there are at most 10, none left out earned more) |
| SalesSummary.Latest | src/pages/SalesSummary.tsx:118-120 | the latest purchase time is one of the sales' times and no sale is later |
| SalesSummary.TallySalesSpec | src/pages/SalesSummary.tsx:107-121 | the tally has exactly the customers who bought, each with the count, revenue and latest time of their own sales |
| SalesSummary.TallySalesValid | src/pages/SalesSummary.tsx:107-121 | the customer tally's key order lists each key once |
| SalesSummary.TallySalesKeys | src/pages/SalesSummary.tsx:107-121 | a customer is a key exactly when they have a sale |
| SalesSummary.TallySalesValues | src/pages/SalesSummary.tsx:107-121 | each key's entry equals the statistics of that customer's own sales |
| SalesSummary.TallySalesSnoc | src/pages/SalesSummary.tsx:107-121 | tallying one more sale is one bump of the tally |
| SalesSummary.TallyCustomers | src/pages/SalesSummary.tsx:107-121 | the loop computes the customer tally of all sales |
| SalesSummary.CustomerAnalysis | src/pages/SalesSummary.tsx:104-126 | the page's top customers are the top rows of the customer tally, satisfying `IsTopCustomerRows` with n = 10 (min(10, number of buyers) rows, by descending revenue, all buyers, no row repeated beyond the tally, every buyer when there are at most 10, none left out spent more) |
| SalesSummary.CustomerRowDrawn | src/pages/SalesSummary.tsx:123 | every customer row drawn belongs to a customer who bought |
| SalesSummary.CustomerRowShown | src/pages/SalesSummary.tsx:123 | every customer who bought has their row |
| SalesSummary.TopCustomerRowsSpec | src/pages/SalesSummary.tsx:123-125 | the first n customer rows by revenue satisfy `IsTopCustomerRows`: exactly min(n, number of different buyers) rows, by descending revenue, each a buyer's figures, a sub-multiset of the customer rows (all of them, so every buyer, when there are at most n), and no buyer left out spent more than one shown |
| SalesSummary.PeriodAverage | src/pages/SalesSummary.tsx:393 | the average sale of a period times its transaction count is its sales; 0 when it has no transactions |
| SalesSummary.CategoryBreakdownSpec | src/pages/SalesSummary.tsx:139-151 | a category is a key exactly when a product has it, and its value is the sum of its products' sales |
| SalesSummary.CategoryData | src/pages/SalesSummary.tsx:153-159 | the slices are exactly the categories with a positive value, with that value |
| SalesSummary.FirstLineOnly | src/pages/SalesSummary.tsx:142-143 | when a sale repeats a product, only the first of its lines counts |
| SalesSummary.SeriesAt | src/pages/SalesSummary.tsx:18-19 | entry k of the series is the bucket k steps after the oldest |
| SalesSummary.BuildSeries | src/pages/SalesSummary.tsx:18-32 | the loop lists the n buckets oldest first |
| SalesSummary.TimeSeries | src/pages/SalesSummary.tsx:13-72 | the daily, weekly or monthly series has 7, 8 or 6 buckets, oldest first, each the bucket of its period |
| SalesSummary.PeriodBucketSpec | src/pages/SalesSummary.tsx:27-31 | a period with no sales is empty, and its customer count never exceeds its transaction count |
| SalesSummary.PeriodsOldestFirst | src/pages/SalesSummary.tsx:34-69 | the daily buckets are consecutive days and the monthly ones consecutive months up to now; each weekly bucket starts a week after the one before |
| SalesSummary.GrowthSpec | src/pages/SalesSummary.tsx:382-384 | growth is 0 for the first period, undefined after a zero period, otherwise the percent change, positive exactly when sales rose after a period with positive sales |
| Reports.ProfitMarginSpec | src/pages/Reports.tsx:103 | 0 without revenue; otherwise at most 100 exactly when purchases are not negative, and not negative exactly when purchases do not exceed revenue |
| Reports.MonthsTotalIsFilteredSum | src/pages/Reports.tsx:22-35 | a range of months totals exactly the records in those months |
| Reports.MonthsTotalAll | src/pages/Reports.tsx:22-35 | when every record is in the range, the range's total is the overall total |
| Reports.MonthlySeries | src/pages/Reports.tsx:16-38 | the series has one entry per month |
| Reports.MonthEntrySpec | src/pages/Reports.tsx:32-37 | a month's entry sums exactly that month's sales and purchases |
| Reports.MonthlySeriesAt | src/pages/Reports.tsx:18-19 | entry k is the month k after the first |
| Reports.MonthlyData | src/pages/Reports.tsx:15-38 | the loop builds the six months ending with the current one, oldest first |
| Reports.MonthlySeriesAddsUp | src/pages/Reports.tsx:32-37 | the months' sales and purchases add up to the totals over the whole range |
| Reports.MonthlyProfitsAddUp | src/pages/Reports.tsx:36 | the months' profits add up to their sales minus their purchases |
| Reports.SixMonthsCoverGrossProfit | src/pages/Reports.tsx:11-37 | when every record falls in the six months, the monthly profits add up to the gross profit |
| Reports.TopProducts | src/pages/Reports.tsx:40-58 | the five best products by revenue: the top rows of the product tally, satisfying `IsTopProductRows` with n = 5 (min(5, number of products sold) rows, sorted, each sold, no row repeated beyond the tally, every product when there are at most 5, none left out earned more) |
| Reports.TopPerformer | src/pages/Reports.tsx:256 | the name of the first top product, or "N/A" when there is none or its name is empty |
| Reports.ProductsSoldCountsLines | src/pages/Reports.tsx:130 | "products sold" counts invoice lines |
| Reports.RetentionSpec | src/pages/Reports.tsx:229-233 | the repeat customers are exactly those with two or more sales; retention is 0 without customers and otherwise a percentage |
| Reports.RepeatCustomersBounded | src/pages/Reports.tsx:218-220 | with unique identifiers, repeat customers number at most half the sales and at most the customers |
| SalesRegister.Lower | src/pages/SalesRegister.tsx:22-23 | lower-casing keeps the length and maps each character |
| SalesRegister.LowerIdempotent | src/pages/SalesRegister.tsx:22-23 | lower-casing twice is lower-casing once |
| SalesRegister.FilteredSalesSpec | src/pages/SalesRegister.tsx:16-27 | a sale is listed exactly when it passes the date, search and status tests; the list keeps the stored order |
| SalesRegister.ContainsEmpty | src/pages/SalesRegister.tsx:22 | the empty search term matches every text |
| SalesRegister.EmptySearchAllStatuses | src/pages/SalesRegister.tsx:21-26 | with no term and all statuses, only the date range filters |
| SalesRegister.SearchIgnoresTermCase | src/pages/SalesRegister.tsx:22-23 | the search does not depend on the term's case |
| SalesRegister.TaxIsTenthOfSubtotal | src/pages/SalesRegister.tsx:31-32 | for invoices taxed at 10%, total tax is a tenth of total subtotal |
| SalesRegister.TaxRateOfInvoices | src/pages/SalesRegister.tsx:262 | the average tax rate of such invoices is 10%, or 0 with no subtotal |
| SalesRegister.ItemsSoldAppend | src/pages/SalesRegister.tsx:250 | items sold add up over concatenated lists |
| SalesRegister.ItemsSoldFiltered | src/pages/SalesRegister.tsx:250 | with non-negative quantities, a filter never increases items sold |
| SalesRegister.CeilDivSpec | src/pages/SalesRegister.tsx:282 | the rounded-up quotient is the least multiple bound |
| SalesRegister.DurationOfDates | src/pages/SalesRegister.tsx:282 | the range from day a to day b lasts b - a + 1 days |
| DailyCollection.DailySalesSpec | src/pages/DailyCollectionSheet.tsx:11-15 | the day's sales are exactly the sales dated that calendar day, in stored order |
| DailyCollection.TotalsAddUp | src/pages/DailyCollectionSheet.tsx:18-25 | the three statuses split the day's count and amount; outstanding is what was not collected; the collection rate is a percentage |
| DailyCollection.PaymentMethodsSplit | src/pages/DailyCollectionSheet.tsx:28-32 | the methods' amounts add up to what was collected, their counts to at most the paid sales, and the shares are 60, 30 and 10 percent |
| DailyCollection.DayExample | src/pages/DailyCollectionSheet.tsx:18-25 | sales of 50 paid, 30 pending and 20 partial give 100 sold, 50 collected, 50 outstanding and a rate of 50% |
| Statement.CustomerSalesSpec | src/pages/Statement.tsx:15-19 | nothing without a selected customer; otherwise exactly that customer's sales in the window, newest first |
| Statement.CustomerSalesNewestFirst | src/pages/Statement.tsx:19 | the list is ordered newest first |
| Statement.EndDayExcluded | src/pages/Statement.tsx:18 | a sale after midnight of the end date falls outside the window |
| Statement.Fold | src/pages/Statement.tsx:27-35 | one statement line per sale |
| Statement.ChargesAreUnpaidTotals | src/pages/Statement.tsx:32 | the charges add up to the unpaid totals |
| Statement.FoldChain | src/pages/Statement.tsx:27-35 | the balance starts at the stored balance, each line adds its charge, each line starts where the previous ended, and the last ends at the stored balance plus all unpaid totals |
| Statement.RunningBalance | src/pages/Statement.tsx:26-36 | the loop computes the fold, reversed |
| Statement.StatementLines | src/pages/Statement.tsx:28-36 | the displayed lines are oldest first, each ends where the next one starts, and the balances run from the stored balance up to the balance plus all unpaid totals |
| Statement.DisplayedStatement | src/pages/Statement.tsx:14-36 | the statement shown for a customer and window has those properties, with the stored balance under the newest sale |
| Statement.OnePendingSaleExample | src/pages/Statement.tsx:27-33 | a balance of 100 and a pending sale of 220 give one line from 100 to 320 |
| Statement.TwoUnpaidSalesExample | src/pages/Statement.tsx:27-36 | two unpaid sales of 10 and 20 over 100 show lines 120 to 130 and 100 to 120 |
| Receivables.AllReceivables | src/pages/SalesmanReceivable.tsx:9-20 | one entry per customer, in order |
| Receivables.OutstandingBounded | src/pages/SalesmanReceivable.tsx:11-13 | a customer's outstanding amount is between 0 and their total sales |
| Receivables.ReceivablesSpec | src/pages/SalesmanReceivable.tsx:9-21 | the list holds exactly the customers who owe something, in customer order |
| Receivables.TotalReceivablesSpec | src/pages/SalesmanReceivable.tsx:23 | the total over the list equals the outstanding total over all customers and is not negative |
| Receivables.OverdueSpec | src/pages/SalesmanReceivable.tsx:24-28 | an account is overdue exactly when one of its unpaid sales is older than 30 days |
| Receivables.UnmatchedSaleContributesNothing | src/pages/SalesmanReceivable.tsx:10 | a sale for no listed customer changes no receivable |
| Receivables.LastSaleIsNewest | src/pages/SalesmanReceivable.tsx:98-100 | there is a last sale exactly when there is an unpaid one, and no unpaid sale is newer |
| Dashboard.HeadlineSpec | src/pages/Dashboard.tsx:27-30 | revenue does not depend on sale order; the low-stock card is 0 exactly when no product is low, is the product count exactly when all are, and never more |
| Dashboard.NoneLowIffEmpty | src/pages/Dashboard.tsx:30 | nothing is low on stock exactly when no product is at or below its minimum |
| Dashboard.AllLowIffFull | src/pages/Dashboard.tsx:30 | every product is listed low exactly when all are at or below their minimum |
| Dashboard.RecentSalesSpec | src/pages/Dashboard.tsx:117 | the list holds the first five sales as stored and, once five exist, never changes |
| Dashboard.LowStockPanelSpec | src/pages/Dashboard.tsx:143-159 | at most five low products, each stored; empty exactly when the "no low stock" message shows, which is exactly when nothing is low |
| Inventory.LowStockSpec | src/pages/Inventory.tsx:65 | exactly the products at or below their minimum stock, in stored order |
| Inventory.LowStockExample | src/pages/Inventory.tsx:65 | the minimum itself counts as low |
| Inventory.MarginSpec | src/pages/Inventory.tsx:169 | a margin exists exactly when the purchase price is not zero; it is the markup in percent, not negative exactly when the product sells at or above cost |
| Inventory.SaveFormSpec | src/pages/Inventory.tsx:21-29 | saving a form gives the product the form's fields and keeps its identifier and creation time |
| Inventory.EditUnchangedIsNoOp | src/pages/Inventory.tsx:45-57 | saving an unchanged form leaves the product as it was |
| Inventory.AddFormSpec | src/pages/Inventory.tsx:26 | a new product carries the form's fields under its new identifier |
| Inventory.ProductEditor.constructor | src/pages/Inventory.tsx:9-19 | the editor starts closed, editing nothing, with an empty form |
| Inventory.ProductEditor.OpenNew | src/pages/Inventory.tsx:74-75 | the editor opens with the form as it stands |
| Inventory.ProductEditor.Edit | src/pages/Inventory.tsx:45-57 | the editor opens on the product with its fields |
| Inventory.ProductEditor.Close | src/pages/Inventory.tsx:31-43 | the editor closes and resets |
| Inventory.ProductEditor.Submit | src/pages/Inventory.tsx:21-29 | the product being edited is updated, or else a new one is added; the editor resets and no other list changes |
| Inventory.Delete | src/pages/Inventory.tsx:59-63 | the product is deleted only when confirmed; no other list changes |
| Inventory.EditThenSave | src/pages/Inventory.tsx:21-29 | saving over a stored product changes exactly that product, to the form's fields |
| Billing.RemoveAt | src/pages/Billing.tsx:25-27 | removing an index in range drops that row and shifts the later ones; out of range changes nothing |
| Billing.EditRowEffect | src/pages/Billing.tsx:29-41 | a quantity or price edit changes that field; a product change also takes the product's selling price when the product exists |
| Billing.Lines | src/pages/Billing.tsx:48-57 | one invoice line per row |
| Billing.InvoiceFacts | src/pages/Billing.tsx:45-71 | a submitted invoice is consistent, pending, taxed at 10%, names its customer and has one line per row with that row's fields |
| Billing.LinesTotalIsPreview | src/pages/Billing.tsx:59 | the invoice lines add up to the preview's subtotal |
| Billing.PreviewMatchesInvoice | src/pages/Billing.tsx:82-84 | the preview's subtotal, tax and total are the invoice's |
| Billing.InvoiceExample | src/pages/Billing.tsx:59-61 | two items at 100 give a subtotal of 200, tax of 20 and a total of 220 |
| Billing.InvoiceForm.constructor | src/pages/Billing.tsx:10-15 | the form starts with no customer and no rows |
| Billing.InvoiceForm.SelectCustomer | src/pages/Billing.tsx:168 | choosing a customer keeps the rows |
| Billing.InvoiceForm.AddRow | src/pages/Billing.tsx:17-23 | a blank row is appended |
| Billing.InvoiceForm.RemoveRow | src/pages/Billing.tsx:25-27 | the row at the index is removed |
| Billing.InvoiceForm.ChangeField | src/pages/Billing.tsx:29-41 | only the edited row changes, as the edit says |
| Billing.InvoiceForm.Submit | src/pages/Billing.tsx:43-80 | with no such customer nothing happens; otherwise the invoice is appended to sales and the form clears |
| Billing.SubmittedUnderSelectedCustomer | src/pages/Billing.tsx:45-46 | the customer found is stored and has the selected identifier |
| FishBoxesSent.ViewsPartition | src/pages/FishBoxesSent.tsx:19-20 | every box is either sent or on hand, and the two views hold nothing else |
| FishBoxesSent.SentTotalsSpec | src/pages/FishBoxesSent.tsx:53-57 | "today" counts exactly the sent boxes dated today, at most all sent; the weight sent is not negative |
| FishBoxesSent.RecordShipmentSpec | src/pages/FishBoxesSent.tsx:22-31 | a shipment adds one sent box with the form's fields and leaves the boxes on hand alone |
| FishBoxesSent.ShipmentEditor.constructor | src/pages/FishBoxesSent.tsx:9-17 | the dialog starts closed with an empty form dated today |
| FishBoxesSent.ShipmentEditor.OpenNew | src/pages/FishBoxesSent.tsx:66-67 | the dialog opens with the form as it stands |
| FishBoxesSent.ShipmentEditor.Close | src/pages/FishBoxesSent.tsx:41-51 | the dialog closes and resets |
| FishBoxesSent.ShipmentEditor.Submit | src/pages/FishBoxesSent.tsx:22-31 | the form is added as a sent box; nothing else in the store changes |
| FishBoxesSent.SendExistingBox | src/pages/FishBoxesSent.tsx:33-39 | the box gets the customer, status sent and today's date; nothing else in the store changes |
| FishBoxesSent.ChooseCustomer | src/pages/FishBoxesSent.tsx:157-164 | choosing a customer sends the box; the blank choice changes nothing |
| FishBoxesSent.SendMovesBox | src/pages/FishBoxesSent.tsx:33-39 | sending a box on hand changes only that box and moves it from on hand to sent |
| FishBoxesSent.PanelSpec | src/pages/FishBoxesSent.tsx:179-182 | the panel shows at most six boxes, the first on hand, and the note counts exactly the rest |
| FishBoxesReceived.SuppliersSpec | src/pages/FishBoxesReceived.tsx:21 | the supplier list is exactly the parties of type supplier, in order |
| FishBoxesReceived.SaveReceiptSpec | src/pages/FishBoxesReceived.tsx:23-31 | saving a form gives the box the form's fields and status received, and keeps its identifier and customer |
| FishBoxesReceived.EditUnchangedMarksReceived | src/pages/FishBoxesReceived.tsx:51-62 | saving an unchanged form marks the box received and records a missing supplier as empty |
| FishBoxesReceived.NewReceiptSpec | src/pages/FishBoxesReceived.tsx:23-36 | a new receipt carries the form's fields, is received and is on hand |
| FishBoxesReceived.ReceiptEditor.constructor | src/pages/FishBoxesReceived.tsx:9-18 | the dialog starts closed, editing nothing, with an empty form dated today |
| FishBoxesReceived.ReceiptEditor.OpenNew | src/pages/FishBoxesReceived.tsx:78-79 | the dialog opens as it stands |
| FishBoxesReceived.ReceiptEditor.Edit | src/pages/FishBoxesReceived.tsx:51-62 | the dialog opens on the box with its fields |
| FishBoxesReceived.ReceiptEditor.Close | src/pages/FishBoxesReceived.tsx:38-49 | the dialog closes and resets |
| FishBoxesReceived.ReceiptEditor.Submit | src/pages/FishBoxesReceived.tsx:23-36 | the edited box is updated and marked received, or else a received box is added; nothing else in the store changes |
| FishBoxesReceived.SaveKeepsOnHandCount | src/pages/FishBoxesReceived.tsx:20-31 | saving over a box on hand changes only that box and keeps the count on hand |
| FishBoxesReceived.ReceivedWeightSpec | src/pages/FishBoxesReceived.tsx:65 | the received weight is the sum over boxes on hand: never negative for non-negative weights, unchanged by a sent box, grown by an on-hand box's weight |
| FishBoxesReceived.ReceivedTotalsSpec | src/pages/FishBoxesReceived.tsx:130-135 | "today" counts exactly the boxes on hand dated today, at most all on hand |
| FishBoxesReceived.GradesAddUp | src/pages/FishBoxesReceived.tsx:66-69 | the three grade counts add up to the number of boxes |
| FishBoxesReceived.TallyGrades | src/pages/FishBoxesReceived.tsx:66-69 | the reduce counts each grade exactly |
| FishBoxesReceived.GradeDistribution | src/pages/FishBoxesReceived.tsx:64-69 | the grade counts of the boxes on hand, adding up to the number on hand |

## Left out

- Persistence to local storage is not modelled. The store's start-up state is the constructor's argument.
- Identifier generation and the clock are not modelled. `generateId()` and `Date.now()` are parameters (`newId`, `now`, `today`).
- Time zones are not modelled: every date computation is in UTC. The page's local-time `toDateString`, `getMonth` and `getDay` are taken as UTC.
- Floating-point rounding and `toFixed` formatting are not modelled: money is exact `real`.
- Rendering is not modelled: JSX, charts, icons and labels.
- The dashboard's fixed sample chart data (src/pages/Dashboard.tsx:8-22) is not modelled.
- The customer and party management pages, the admin panel and the shared layout components are not part of this model.
- Key order for integer-like keys is not modelled. JavaScript's `Object.values` lists such keys first; the tally keeps first-insertion order for every key.
- Receivables.LastSaleIsNewest: the in-place `sort` of the unpaid sales is modelled on values, so aliasing of the shared array is not captured.
- SalesRegister.Lower: case folding covers ASCII letters only.
- DailyCollection.PaymentMethodsSplit: the transaction counts `Math.floor(n * 0.6)` etc. are taken equal to the integer `n * 6 / 10` etc., which they are for every array length.
- Statement.EndDayExcluded records a behaviour, not a repair: the end date is parsed as midnight, so sales later on the end day are excluded. The model keeps that behaviour.
- SalesSummary.TimeSeries: bucket labels (`W1`, month names, weekday names) are not modelled.
- Inventory.Margin and SalesSummary.Growth return `None` where the page would show `Infinity` or `NaN`.
- Parsing of form input (`parseFloat`, `parseInt`, `NaN`) and the per-field `onChange` setters are not modelled; forms hold typed values.
- Inventory.Delete takes the answer to `window.confirm` as a parameter.
- Reports.TopProducts shares the per-product tally with the sales summary; the report's rows drop the sale counts.
- The Billing dialog's open flag is not modelled; only the form's customer and rows are.
- Billing.InvoiceForm.ChangeField requires an index in range: the page only calls it from rendered rows.
- Reports.MonthlySeriesAddsUp and SalesSummary.PeriodsOldestFirst are stated for any month or bucket function as well as the calendar one.
- Clock.MonthOfDay is checked on example dates, not proved against a calendar reference.
- FishBoxesReceived.ReceivedTotalsSpec takes "today" as a parameter.
