# Household inventory: reports, notifications, friends and shopping lists

A Dafny model of the deterministic core of a Django household-inventory
application, with proofs of what that core promises.

- **Report aggregation** (`reports/views.py`). Every report works on the
  requesting user's consumption, expense or wastage rows dated within the
  last 30 days. From them it computes the dashboard figures, the three report
  pages, the month-trend endpoints and the row selection of the exports. The
  create views save a row for the requester and then run the report rules.
- **Notification rules** (`reports/notifications.py`,
  `notifications/services.py`, `notifications/signals.py`,
  `notifications/utils.py`). The threshold and day-window rules decide on a
  batch of notifications, and each batch is appended to the notification
  table.
- **Notification read state** (`notifications/models.py`,
  `notifications/views.py`). Marking one notification read, marking all of
  a user's notifications read, and the unread count.
- **Friend requests** (`users/views.py`, `users/models.py`). A request moves
  from pending to accepted or rejected. The friendship relation is kept
  symmetric, and at most one request exists per (sender, receiver) pair.
- **Shopping-list items** (`shopping_list/views.py`). Adding an item to one
  of the requester's lists, and toggling an item's bought flag.

Encodings:

- Dates are day numbers (`Day`) and clock readings are seconds (`Instant`).
  `DayOf` gives the day of an instant, which is the date Django compares a
  DateField with.
- Two-place decimals are integer hundredths, and database averages are
  exact `real`s.
- Primary keys are positions in insertion order plus one.
- A Python exception is the `Raised` case of `Outcome`.
- Notification titles and messages are kept as templates (`Messages.Text`).
  `Messages.Render` gives the exact string each f-string builds.
- The clock (`now`), the request method and form validity are parameters.

The modules follow the source:

| module | models |
|---|---|
| `Common` | options, outcomes, filters, maps, decimal text |
| `Ordering` | `order_by` |
| `Records` | the stored rows |
| `Calendar` | `TruncMonth` and its `%Y-%m-%d` label |
| `ReportAggregates` | the window, the sums, the average and the distinct products |
| `TrendSeries` | the month series |
| `TopProducts` | the top five products |
| `ReportViews` | the views of `reports/views.py` |
| `Messages` | the notification texts |
| `Notifications` | the notification table |
| `ReportRules` | `reports/notifications.py` |
| `NotificationServices` | `notifications/services.py` |
| `NotificationSignals` | `notifications/signals.py` |
| `Friends` | friend requests |
| `Shopping` | shopping-list items |

The stateful parts are classes whose methods are proved against the pure
functions that specify them:

- `NotificationStore`: the notification table.
- `ReportDatabase`: the report tables.
- `SocialGraph`: users, friendships and friend requests.
- `ShoppingStore`: shopping lists and their items.

Where the repository's tests and its code disagree, the model follows the
code:

- The trend endpoints return a list of `{month, total}` per calendar month.
- The report views read no query-string filters.
- Record validation has no implementation.
- `toggle_item_status` looks the item up by its own key and its list's owner.
  It never compares the list key from the URL.

## Model

| member | source | states |
|---|---|---|
| Common.DayOf | reports/views.py:34 | the day of an instant is the one whose 24 hours contain it, so "today" is well defined for every clock reading |
| Ordering.SortDesc | reports/views.py:53 | `order_by('-key')`: the result is a permutation of the input with non-increasing keys |
| Calendar.MonthIndexJanuaryEnd | reports/views.py:139 | `TruncMonth` puts 1970-01-31 in January 1970 |
| Calendar.MonthIndexFebruaryStart | reports/views.py:139 | `TruncMonth` puts 1970-02-01, the day after, in February 1970 |
| Calendar.MonthIndexBeforeEpoch | reports/views.py:139 | `TruncMonth` puts 1969-12-31 in December 1969 |
| Calendar.MonthIndexLeapDay | reports/views.py:139 | `TruncMonth` puts 2000-02-29 in February and 2000-03-01 in March |
| Calendar.MonthIndexOctober2026 | reports/views.py:139 | `TruncMonth` puts 2026-10-16 in October 2026 |
| Calendar.MonthLabelRoundTrip | reports/views.py:146 | the `%Y-%m-%d` text of a month's first day reads back to that month, for years 0000-9999 |
| Calendar.MonthLabelsDistinct | reports/views.py:357-358 | different months get different labels, so the labelled series still has one entry per month |
| ReportAggregates.Window | reports/views.py:128-131 | the window holds only the requester's rows dated on or after today - 30, and holds every such row exactly as many times as the table does |
| ReportAggregates.NewestFirst | reports/views.py:131 | `order_by('-date')`: the same rows, with dates non-increasing |
| ReportAggregates.TotalPermutation | reports/views.py:133 | the sum does not depend on the order of the rows |
| ReportAggregates.NewestFirstTotal | reports/views.py:131-133 | sorting the window newest first keeps its sum and its count |
| ReportAggregates.Average | reports/views.py:134 | the average is 0 for an empty window; otherwise average × count = total |
| ReportAggregates.AverageBounds | reports/views.py:168 | when every amount lies in [lo, hi], so does the average |
| ReportAggregates.ProductIdsMembers | reports/views.py:169 | `values('product').distinct()` holds exactly the products of the window's rows |
| ReportAggregates.ProductIdsBound | reports/views.py:203 | there are no more distinct products than rows, and at least one when a product window is non-empty |
| ReportAggregates.DistinctProducts | reports/views.py:169 | `total_products` is at most the row count and is 0 exactly when the window is empty |
| TrendSeries.TrendsAscending | reports/views.py:138-142 | the month series is strictly ascending by month |
| TrendSeries.TrendsMonths | reports/views.py:172-176 | the series has a point for exactly the months in which the window has rows |
| TrendSeries.TrendsAt | reports/views.py:206-210 | the value at a month is the sum of that month's rows |
| TrendSeries.TrendsTotal | reports/views.py:350-354 | the points add up to the window total |
| TrendSeries.TrendPointTotal | reports/views.py:138-142 | each point carries the sum of its own month's rows |
| TrendSeries.SeriesAtPoint | reports/views.py:138-142 | in an ascending series, looking up a point's month gives that point's total |
| TrendSeries.AsQueried | reports/views.py:350-354 | the queried series has one `{month, total}` row per point, in the same order |
| TrendSeries.LabelMonths | reports/views.py:357-358 | the loop replaces every element of the series with its labelled version, in place |
| TrendSeries.LabelsReadBack | reports/views.py:146 | a relabelled point carries its month's label, and the label reads back to the month |
| TrendSeries.LabelDiffersFromOtherMonths | reports/views.py:357-358 | a point's label differs from the label of every point of another month in years 0000-9999, so the labelled series keeps one label per month |
| TopProducts.GroupDistinct | reports/views.py:48-50 | `values('product__name').annotate(...)` has one entry per product name |
| TopProducts.GroupNames | reports/views.py:48-50 | the grouped names are exactly the names in the window |
| TopProducts.GroupAt | reports/views.py:50-52 | each name's entry has that name's summed quantity and row count |
| TopProducts.TopProductsShape | reports/views.py:48-53 | `top_products` has min(5, number of names) entries, in non-increasing order of total quantity, each a name of the window with its sum and count |
| TopProducts.TopProductsNames | reports/views.py:48-53 | the entries of `top_products` name distinct products, and list every name of the window when there are at most five |
| TopProducts.TopProductsDominate | reports/views.py:53 | a product outside the top five has no larger total than any product inside it |
| ReportViews.WindowKeepsKind | reports/models.py:6-69 | the window of a table holds only rows of that table's model |
| ReportViews.TrendsApi | reports/views.py:340-360 | the endpoint returns the requester's month series with each month replaced by its label |
| ReportViews.LabelledSeriesFacts | reports/views.py:350-358 | the returned series is ascending, has one point per month of the window, sums to the window total, and labels each month |
| ReportViews.Report | reports/views.py:124-155 | a report page's context is the specified window, sums, counts and series |
| ReportViews.ReportRows | reports/views.py:162-165 | a report lists exactly the requester's rows dated on or after today - 30, each as many times as the table holds it, newest first |
| ReportViews.ReportTotals | reports/views.py:167-168 | the page's total and average are the sum and mean of the listed rows, and both are 0 when nothing is listed |
| ReportViews.ReportCounts | reports/views.py:196-203 | the trip count is the row count (expenses); the product count is the number of distinct products, at most the row count and 0 only for no rows (other kinds) |
| ReportViews.ReportSeries | reports/views.py:172-180 | the page's series is ascending, has one point per month of the window, and sums to the page total |
| ReportViews.DashboardFacts | reports/views.py:31-82 | the dashboard: at most five top products ordered by quantity with their sums and counts; each sum is 0 when its count is 0; the expense series is ascending and sums to the expense total |
| ReportViews.RangeRows | reports/views.py:234-237 | the export range holds exactly the requester's rows dated from today - 30 through today, each as many times as the table holds it |
| ReportViews.ExportGuard | reports/views.py:227-228 | status 400 exactly when the format is neither "csv" nor "pdf"; otherwise the csv writer is chosen exactly for "csv" |
| ReportViews.ExportRows | reports/views.py:269-275 | the queryset a valid export builds holds exactly the requester's rows dated today - 30 through today, each as many times as the table holds it, newest first (as written these rows never reach the response, see Findings) |
| ReportViews.ExportAsWrittenLosesRows | reports/views.py:250-260 | as written, a PDF export raises exactly when the format is "pdf", and a CSV export's body equals the selected rows exactly when no row is in range |
| ReportViews.ExportAsWrittenExample | reports/views.py:250-255 | one expense dated today: the selected rows hold it, the CSV body as written is empty |
| ReportViews.ExportWithinReport | reports/views.py:307-313 | an export's selected rows are the report window's rows not dated after today |
| ReportViews.CreatedRowOwned | reports/views.py:90-92 | a created row is owned by the requester and appended to its model's table with the form's date and amount, so it shows in the requester's window when dated within it |
| ReportViews.CreatedRowHidden | reports/views.py:103-105 | saving a row for the requester leaves every other user's windows unchanged |
| ReportViews.ConsumptionCreateKeepsRuleInputs | reports/views.py:116-120 | a consumption row created through the reports app changes none of the tables the report rules read |
| ReportViews.ReportDatabase.CreateRecord | reports/views.py:90-95 | a valid form saves the row for the requester and then appends the report rules' batch for the requester (with the corrected trend comparison); an invalid form changes nothing |
| ReportViews.ReportDatabase.DashboardView | reports/views.py:31-82 | the view appends the report rules' batch (with the corrected trend comparison) and returns the specified dashboard figures |
| ReportViews.ViewsAsWrittenRaise | reports/views.py:36-37 | as written, the dashboard fails exactly when the requester's products-app consumption from now - 30 days to now - 15 days is non-zero, and a create view then fails after saving its row, whatever the row |
| Messages.SoonMessageMentionsDays | notifications/signals.py:19 | the "soon" message quotes the day count in decimal, right after the product name |
| Messages.ProductPathsDistinct | notifications/services.py:28 | different products get different `/products/<id>/` links |
| Notifications.CodesDistinct | notifications/models.py:7-12 | different types are stored under different codes, and exactly the four declared types use the declared codes |
| Notifications.NewNotification | notifications/models.py:19 | a created notification starts unread and without a generic relation, with the given owner, type, texts and link |
| Notifications.MarkedReadFacts | notifications/models.py:37-39 | `mark_as_read` sets the flag and changes no other field; applying it twice is the same as once |
| Notifications.ListFor | notifications/models.py:30 | the list page shows exactly the requester's notifications, newest first |
| Notifications.ListUnreadCount | notifications/views.py:20 | the list page's `unread_count` equals the API's count of the requester's unread notifications |
| Notifications.UnreadAtMostOwned | notifications/views.py:45 | the unread count is at most the number of the requester's notifications |
| Notifications.UnreadCountZero | notifications/views.py:45 | the count is 0 exactly when the requester has no unread notification |
| Notifications.ReadAllRows | notifications/views.py:36 | after `mark_all_read` each of the requester's rows is read, other users' rows are unchanged, and only read flags change |
| Notifications.ReadAllClearsUnread | notifications/views.py:36 | after `mark_all_read` the requester's unread count is 0 |
| Notifications.ReadAllIdempotent | notifications/views.py:36 | repeating `mark_all_read` changes nothing |
| Notifications.ReadAllOthersUnread | notifications/views.py:36 | other users' unread counts are unaffected |
| Notifications.NotificationStore.constructor | notifications/models.py:7-39 | the table starts empty |
| Notifications.NotificationStore.Insert | notifications/models.py:7-39 | `objects.create` appends the row, which then has the returned primary key |
| Notifications.NotificationStore.InsertEach | notifications/services.py:20-29 | a create loop appends one row per element, in order |
| Notifications.NotificationStore.Save | notifications/utils.py:25 | `save()` replaces that row only |
| Notifications.NotificationStore.MarkAsRead | notifications/models.py:37-39 | row `pk` becomes its read version; no other row changes |
| Notifications.NotificationStore.MarkNotificationRead | notifications/views.py:24-27 | the row is found exactly when it exists and belongs to the requester, and is then marked read; otherwise (404) the table is unchanged |
| Notifications.NotificationStore.MarkAllRead | notifications/views.py:34-36 | the loop leaves the table as specified by `ReadAll` (see the `ReadAll*` lemmas) |
| Notifications.NotificationStore.GetUnreadCount | notifications/views.py:43-46 | the count is at most the requester's rows, and is 0 exactly when none of them is unread |
| Notifications.CreateNotification | notifications/utils.py:15-27 | one row is appended and returned, with the given user, type, title and message, unread; without a related object it has no generic relation; with one, it points at that object's model and primary key |
| ReportRules.BudgetRule | reports/notifications.py:8-24 | one unread 'budget' notification for the user exactly when the 30-day expense sum is strictly above the threshold (default 1000); an equal sum adds nothing |
| ReportRules.CheckBudgetExceeded | reports/notifications.py:8-24 | appends exactly the budget batch |
| ReportRules.HighWastageRule | reports/notifications.py:26-42 | one unread 'wastage' notification exactly when the 30-day wastage count is strictly above the threshold (default 5) |
| ReportRules.CheckHighWastage | reports/notifications.py:26-42 | appends exactly the high-wastage batch |
| ReportRules.HalvesSplit | reports/notifications.py:48-62 | the halves [now-30d, now-15d) and [now-15d, ...) are disjoint, and together they make up the whole 30-day sum |
| ReportRules.TrendVerdictMeaning | reports/notifications.py:64-79 | "increase" exactly when second > 1.5 × first; "decrease" exactly when not increase and second < 0.5 × first; nothing when both halves are 0 |
| ReportRules.TrendAsWrittenRaises | reports/notifications.py:65 | as written, the comparison raises whenever the first half is non-zero |
| ReportRules.TrendRule | reports/notifications.py:64-79 | at most one 'consumption' notification, the increase or the decrease one under exactly those conditions |
| ReportRules.CheckConsumptionTrends | reports/notifications.py:44-79 | appends exactly the trend batch |
| ReportRules.ReportBatchBounds | reports/notifications.py:81-87 | between 0 and 3 notifications, all the user's and unread |
| ReportRules.GenerateReportNotifications | reports/notifications.py:81-87 | appends the budget, wastage and trend batches, in that order |
| ReportRules.ReportRunAsWrittenRaises | reports/notifications.py:81-87 | as written, a run raises exactly when the first half of the trend window is non-zero, after the budget and wastage notifications are created; otherwise it creates exactly the corrected batch |
| NotificationServices.ExpiringAt | notifications/services.py:13-18 | the expiring products are the user's active products with today < expiry <= today + 7 |
| NotificationServices.ExpiryBatchProducts | notifications/services.py:11-29 | the batch references, with multiplicity, exactly the user's active products expiring within seven days |
| NotificationServices.ExpiryBatchRows | notifications/services.py:20-29 | each row is an unread 'expiry' notification of the user about such a product, linking to `/products/<id>/` with a day count between 1 and 7 |
| NotificationServices.ExpiryRowAt | notifications/services.py:21-28 | the i-th row is the notification for the i-th expiring product |
| NotificationServices.ExpiryBatchOrder | products/models.py:29-30 | rows come soonest expiry first, so the day counts never decrease |
| NotificationServices.GenerateExpiryNotifications | notifications/services.py:8-29 | appends exactly the expiry batch |
| NotificationServices.ExpiryAsWrittenRaises | notifications/services.py:21 | as written, the generator raises exactly when there is a product to report |
| NotificationServices.ExpiryAsWrittenExample | notifications/services.py:21 | a product expiring in three days: the code as written raises, the corrected generator reports it |
| NotificationServices.LowStockAt | notifications/services.py:34-38 | the low-stock products are the user's active products with quantity <= 1 |
| NotificationServices.LowStockBatchProducts | notifications/services.py:34-48 | the batch references, with multiplicity, exactly the user's active products with quantity <= 1 |
| NotificationServices.LowStockBatchRows | notifications/services.py:40-48 | each row is an unread 'low_stock' notification of the user about such a product, linking to its page and quoting its quantity and unit |
| NotificationServices.GenerateLowStockNotifications | notifications/services.py:31-48 | appends exactly the low-stock batch |
| NotificationServices.RecentAt | notifications/services.py:53-58 | the recent wastage rows are the user's rows dated yesterday or later |
| NotificationServices.WastageBatchRows | notifications/services.py:53-68 | one row per recent wastage record of the user, one to one (the batch is, with multiplicity, exactly one notification per recent record), each unread, of type 'wastage', quoting that record's product, link and reason |
| NotificationServices.GenerateWastageNotifications | notifications/services.py:50-68 | appends exactly the wastage batch |
| NotificationServices.SummaryRule | notifications/services.py:73-88 | one 'report' summary exactly when the user has a wastage row in the 30-day window; it quotes the count and links to the wastage report |
| NotificationServices.GenerateSummaryNotification | notifications/services.py:70-88 | appends exactly the summary batch |
| NotificationServices.GenerateAllNotifications | notifications/services.py:90-95 | appends the four batches, in order |
| NotificationServices.AllBatchOwnedUnread | notifications/services.py:90-95 | everything appended belongs to the user and is unread |
| NotificationServices.RepeatedRunsAddAgain | notifications/services.py:90-95 | there is no deduplication: two runs on unchanged data raise the user's unread count by twice the batch |
| NotificationServices.AllAsWrittenRaises | notifications/services.py:92 | as written, the whole refresh fails whenever a product expires within a week |
| NotificationSignals.ExpiryDecisionCases | notifications/signals.py:12-29 | a created product never gets a notice; for an update the branches split the day count into [1, 7], (-inf, 0] and [8, +inf) |
| NotificationSignals.ExpirySignalRule | notifications/signals.py:12-29 | at most one 'expiry' notice, to the owner and linked to the product: "soon" (quoting the days) exactly for 1..7 days, "expired" exactly for 0 or fewer |
| NotificationSignals.CheckProductExpiry | notifications/signals.py:12-29 | appends exactly the expiry-signal batch |
| NotificationSignals.StockSignalRule | notifications/signals.py:34-41 | one 'low_stock' notice exactly on an update with quantity <= the minimum, to the owner, linked to the product |
| NotificationSignals.CheckLowStock | notifications/signals.py:34-41 | appends exactly the low-stock-signal batch |
| NotificationSignals.StockSignalAsWrittenRaises | notifications/signals.py:34 | as written, the receiver raises on every update |
| NotificationSignals.OnProductSaved | notifications/signals.py:9-41 | a product save runs both receivers in order |
| NotificationSignals.ProductSavedBounds | notifications/signals.py:9-41 | a save adds at most two notices, both about the product and for its owner, and none on creation |
| NotificationSignals.ListSignalRule | notifications/signals.py:46-53 | one notice exactly when a list is created, to its owner, naming and linked to the list |
| NotificationSignals.NotifyShoppingListCreated | notifications/signals.py:46-53 | appends exactly the list-signal batch |
| Friends.FindByEmail | users/views.py:64 | the user found has that email; when none is found, no user has it |
| Friends.FindByEmailUnique | users/models.py:5 | with unique emails, the lookup finds the one user who owns the email |
| Friends.AddSentIff | users/views.py:63-85 | a request is sent exactly when the email belongs to a user who passes every guard, and it goes to that user |
| Friends.AddGuards | users/views.py:65-78 | nothing is sent to oneself, to an existing friend, or while a request is pending in either direction |
| Friends.NoSecondRequest | users/models.py:26 | once a request from a to b exists, no second one is sent; a re-request after a rejection hits the uniqueness constraint |
| Friends.RequestAfterRejection | users/models.py:26 | a concrete rejected-then-asked-again case ends in the integrity error |
| Friends.AddPreservesValid | users/views.py:80-84 | a sent request is pending and keeps the (sender, receiver) pairs unique |
| Friends.AcceptEffect | users/views.py:92-98 | accepting a pending request addressed to the requester makes the two users friends both ways, accepts only that request and adds no other friendship; otherwise nothing changes |
| Friends.RejectEffect | users/views.py:105-107 | rejecting sets only that request to rejected and never touches friendships; otherwise nothing changes |
| Friends.ReviewPreservesValid | users/models.py:13-26 | accepting and rejecting keep the relation symmetric and the pairs unique |
| Friends.RemoveEffect | users/views.py:114-117 | afterwards the two are friends in neither direction, exactly those two pairs were removed, and the tables stay valid |
| Friends.RemoveNotFound | users/views.py:114 | an unknown user id (404) changes nothing |
| Friends.StatusMonotone | users/models.py:13-21 | under every operation a request's status changes only out of pending |
| Friends.SocialGraph.constructor | users/models.py:5-26 | the tables start valid, with no friendships and no requests |
| Friends.SocialGraph.AddFriend | users/views.py:60-88 | `add_friend` decides as specified, appends only a sent request, and keeps the tables valid |
| Friends.SocialGraph.AcceptFriendRequest | users/views.py:91-101 | the request is found exactly when it is pending and addressed to the requester; the new state is as specified and valid |
| Friends.SocialGraph.RejectFriendRequest | users/views.py:104-110 | the request is found exactly when it is pending and addressed to the requester; the new state is as specified and valid |
| Friends.SocialGraph.RemoveFriend | users/views.py:113-119 | 404 exactly for an unknown user id; the new state is as specified and valid |
| Shopping.FlippedFacts | shopping_list/views.py:63 | the flip negates `is_bought`, keeps every other field, and flipping twice restores the item |
| Shopping.ToggleReportsNewValue | shopping_list/views.py:60-66 | success exactly on a POST for an item on one of the requester's lists; the response reports the flag now stored; a 400 or a 404 changes nothing |
| Shopping.ToggleTwiceRestores | shopping_list/views.py:62-64 | toggling the same item twice restores the tables; a toggle touches no list and no other item |
| Shopping.AddItemAttaches | shopping_list/views.py:45-57 | a saved item is appended unbought to the requester's list with the given key, and only the requester can then toggle it; 404 exactly when the list is not the requester's; nothing is saved otherwise |
| Shopping.ShoppingStore.constructor | shopping_list/views.py:45-66 | the store starts with the given lists and no items |
| Shopping.ShoppingStore.ToggleItemStatus | shopping_list/views.py:60-66 | the response and new state are those `ToggleResult` and `AfterToggle` specify |
| Shopping.ShoppingStore.AddItem | shopping_list/views.py:45-57 | the response and new state are those `AddItemResult` and `AfterAddItem` specify |

## Left out

- CSV and PDF formatting is not modelled: the CSV column text, the file names, the PDF templates and wkhtmltopdf (reports/views.py:250-337). The exports are modelled up to the format guard, the row selection, the headline figures and which rows reach the response body (`ReportViews.ExportBodyAsWritten`). The stand-alone `export_*_csv` and `export_*_pdf` functions (reports/views.py:408-685) are left out for the same reason.
- Forms, templates, URL routing, login redirects and the messages framework are framework configuration. A form is modelled only as the row it yields and a validity flag.
- The XHR JSON answer of `mark_notification_read` and `mark_all_read` versus their redirect is not modelled. The answer carries no state.
- Pagination of the notification list (ten per page) is not modelled. The model covers the full list and its count.
- The `refresh_notifications` view is not modelled separately. It runs `GenerateAllNotifications` and redirects.
- Time zones and wall-clock time are not modelled. Days come from UTC seconds, and `now` is a parameter.
- `created_at` values that tie are placed in an arbitrary order by `Notifications.ListFor`. The database leaves that order unspecified.
- Category names in the export CSV columns are not modelled. The export rows carry no category join.
- Query-string filters and record validation appear only in the tests. The views and models do not implement them.
- Notification type choices are not enforced. `objects.create` does not validate choices, so the type is a wider enumeration that includes 'budget', 'consumption' and 'shopping_list'.
- The `instance.expiry_date` guard of `check_product_expiry` always holds, because `expiry_date` is a non-null DateField. `NotificationSignals.ExpirySignalRule` therefore covers only the `created` case of the "does nothing" property.
- `content_type` is modelled as the related object's model (`Notifications.ContentType`), not as a row of the content-types table.
- Concurrency between users is not modelled, including the race on duplicate notifications. Every call is sequential.
- Calendar.MonthIndex: checked on sample days only (a month end, the epoch, a leap day). That two days share an index exactly when they share a calendar month is not proved for all days, because the division arithmetic of the conversion is too costly for the solver in general.
- ReportViews.ExportOf: its rows and figures are what the view builds, not what the response contains. The CSV branch passes the queryset as `model` to `export_to_csv(model, queryset, filename)` (reports/export.py:11), which writes an empty body. The PDF branch calls the three-parameter `export_to_pdf` (reports/export.py:53) with two arguments, which raises TypeError. `ReportViews.ExportBodyAsWritten` models that outcome (see Findings).
- ReportViews.ReportDatabase.CreateRecord: appends the batch of the corrected trend comparison. As written, `generate_report_notifications` runs after the row is saved (reports/views.py:91-94, 104-107, 117-120) and raises TypeError whenever the first half of the trend window is non-zero: the row stays saved, the budget and wastage notifications stay created and the request fails (`ReportViews.ViewsAsWrittenRaise`).
- ReportViews.ReportDatabase.DashboardView: returns the figures computed after the corrected rules. As written, the rules run first (reports/views.py:37), so under the same condition the dashboard fails with a server error instead (`ReportViews.DashboardAsWritten`).
- ReportViews.ExportRows: states the selected queryset, not the response body, for the reason given under `ReportViews.ExportOf`.
- Calendar.MonthLabelRoundTrip: proved only for years 0000 to 9999, that is for a four-digit year, as for every date the 30-day window can hold.
- ReportViews.ReportTotals: states the average as `Average(c.rows)`. The quotient property (average × count = total, and 0 when empty) is the contract of `ReportAggregates.Average`, not restated here.
- ReportViews.DashboardFacts: says nothing about the months of the dashboard's expense series. Unlike the report pages and the endpoints, the dashboard hands out truncated months without relabelling them.
- NotificationSignals.StockSignalRule: takes the minimum quantity as a parameter. Product has no `min_quantity` field (see Findings).

## Findings

| source | as written | input that shows it | evidently intended | confidence | as-written member | corrected member |
|---|---|---|---|---|---|---|
| reports/notifications.py:65 | `second_half > first_half * 1.5` (and `first_half * 0.5` at line 73) multiplies the Decimal sum by a float, which raises TypeError whenever the first half is non-zero | first half 1.00, second half 2.00 | an exact comparison: increase when 2 × second > 3 × first, otherwise decrease when 2 × second < first | not executed | ReportRules.TrendAsWrittenRaises | ReportRules.TrendVerdictMeaning |
| notifications/services.py:21 | `product.expiry_date - timezone.now()` subtracts a datetime from a date, which raises TypeError on the first expiring product | one active product of the user expiring in three days | a day count from today's date to the expiry date | not executed | NotificationServices.ExpiryAsWrittenExample | NotificationServices.ExpiryBatchRows |
| notifications/signals.py:34 | `instance.min_quantity` reads a field Product does not have, which raises AttributeError on every product update | any update of an existing product | compare the quantity with a minimum-quantity threshold | not executed | NotificationSignals.StockSignalAsWrittenRaises | NotificationSignals.StockSignalRule |
| reports/views.py:250-260 | the CSV branch calls `export_to_csv(queryset, fields, headers)` against the signature `(model, queryset, filename)`, so no model branch matches and the body is empty; the PDF branch calls `export_to_pdf(html, filename)` against a three-parameter signature, which raises TypeError (likewise at lines 288-298 and 326-336) | one expense of the user dated today, format "csv" or "pdf" | the CSV or PDF holds the rows dated today - 30 through today, newest first | not executed | ReportViews.ExportAsWrittenLosesRows | ReportViews.ExportRows |
