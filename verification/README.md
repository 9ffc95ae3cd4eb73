# Workshop booking app — a verified model

The application is a car-workshop front desk. Staff members log in with a
PIN. They create bookings for a customer's car from a fixed catalogue of
services. Each booking moves from `pending` to `paid` to `completed` through
the buttons on its card. Staff can browse, search, sort and count bookings,
download HTML receipts for paid work, and look up a customer's history by
phone. A dashboard shows revenue, completed jobs, today's bookings and the
pending payments.

This project models that logic in Dafny, one module per source file:

| module | file | source |
|---|---|---|
| `Types` | `types.dfy` | the records and the closed status and category enums |
| `BookingContext` | `booking_context.dfy` | the booking store: id generator, `createBooking` with its customer-ledger update, `updateBookingStatus`, and the today/pending queries |
| `NewBooking` | `new_booking.dfy` | the new-booking form: field edits, service toggling, the total, and the submit guard |
| `BookingsList` | `bookings_list.dfy` | the bookings page: search and status filter, the five sort orders, per-status counts |
| `Receipts` | `receipts.dfy` | the receipts page: paid bookings, search, receipt document, file name, badge |
| `Customers` | `customers.dfy` | the customer page: phone search, history, list cap, badge |
| `Dashboard` | `dashboard.dfy` | revenue, completed count, display caps |
| `BookingCard` | `booking_card.dfy` | the buttons per status, the lifecycle they allow, and the badge |
| `AuthContext` | `auth_context.dfy` | the staff session: restore, login, logout |

There are also three helper modules:
- `Common` holds `Option` and `Result`.
- `Seqs` holds filter, subsequence, sum, find-first and take.
- `Text` holds decimal strings, `padStart`, `slice(-n)`, ASCII lowercase, substring search, JavaScript `parseInt`, the `||` fallback for unset or empty settings, and the string order used for sorting by name.

State that the source changes in place is modelled as classes:
- `BookingContext.BookingStore` has `bookings` and `customers` sequence fields.
- `NewBooking.NewBookingForm` has the `formData` record.
- `Customers.CustomerHistory` has the search text and the selected customer.
- `AuthContext.AuthSession` has `staff`, `isLoading` and the remembered staff id.

Everything else is functions and lemmas.

The store keeps an invariant, `BookingContext.Ledger`, with four parts:
- booking document ids are unique;
- customer ids and phones are unique;
- every id in a customer's history names a stored booking;
- every customer's `totalSpent` equals the sum of the amounts of the bookings in its history.

Both store methods preserve it. The methods of the form and the card that write through the store inherit it.

Dates are integer millisecond ticks, and a calendar day is a tick divided by 86 400 000. The environment supplies four things as parameters:
- the clock reading (instant, year, month, day);
- the random number below 1000;
- the document ids the remote store assigns;
- the staff records the login query returns.

The booking type's comment at `src/types/index.ts:26` says "BK-0001 format". The model follows the generator, which produces `BK-YYMMDD-NNN`. That reference is 13 characters for every year from 10 on. For a year 0-9, `slice(-2)` of a one-digit year keeps one digit, so the reference has 12 characters; `BookingIdShape` states this exactly.

## Model

| member | source | states |
|---|---|---|
| `Types.StatusNamesDistinct` | src/types/index.ts:33 | the four status names are pairwise distinct, and none is the list filter's `all` |
| `BookingContext.BookingIdShape` | src/contexts/BookingContext.tsx:96-104 | the reference starts with `BK-` and has `-` before the three-digit number; it is 13 characters long for years from 10 on (and negative years), 12 for years 0-9 |
| `BookingContext.GenerateBookingId` | src/contexts/BookingContext.tsx:96-104 | defines the `BK-YYMMDD-NNN` reference from the clock and the random number; its shape is stated by `BookingIdShape` and its fields read back by `GenerateParseRoundTrip` |
| `BookingContext.GenerateParseRoundTrip` | src/contexts/BookingContext.tsx:96-104 | parsing a generated reference gives back the year modulo 100, the month, the day and the random number, so each field is zero-padded to its fixed width |
| `BookingContext.FindCustomerByPhone` | src/contexts/BookingContext.tsx:118 | the index of the first customer whose phone equals the booking's, and none exactly when no phone matches |
| `BookingContext.NewBooking` | src/contexts/BookingContext.tsx:108-113 | the stored booking carries every input field unchanged, plus the document id, the generated reference and the creation time |
| `BookingContext.RecordBooking` | src/contexts/BookingContext.tsx:117-135 | an existing customer with the phone gains the amount and the document id at the end of its history, and no other customer changes; otherwise exactly one customer is appended with the booking's name, phone, amount and `[docId]` |
| `BookingContext.RecordBookingOwner` | src/contexts/BookingContext.tsx:117-138 | afterwards exactly one customer has the booking's phone, and its history ends with the returned document id |
| `BookingContext.Ledger` | src/contexts/BookingContext.tsx:106-149 | the invariant both store writes keep: unique booking ids, unique customer ids and phones, histories naming stored bookings, and each `totalSpent` the sum of its history; kept by `CreateKeepsLedger` and `LedgerAfterStatusChange` |
| `BookingContext.CreateKeepsLedger` | src/contexts/BookingContext.tsx:106-138 | appending the stored form of a new booking under a fresh document id, and recording it with a fresh customer id, keeps the ledger invariant |
| `BookingContext.LedgerAfterStatusChange` | src/contexts/BookingContext.tsx:146-149 | rewriting statuses (same ids and amounts) keeps the ledger invariant |
| `BookingContext.HistoryTotalExtend` | src/contexts/BookingContext.tsx:123-124 | appending an id to a history adds that booking's amount to the history's total |
| `BookingContext.TodayBookings` | src/contexts/BookingContext.tsx:186-195 | a subsequence of the bookings holding exactly those scheduled on today's calendar day, each as often as stored |
| `BookingContext.PendingPayments` | src/contexts/BookingContext.tsx:197-199 | a subsequence of the bookings holding exactly the pending ones, each as often as stored |
| `BookingContext.BookingStore.constructor` | src/contexts/BookingContext.tsx:50-52 | both collections start empty, the ledger invariant holds, and the catalogue is the nine default services |
| `BookingContext.BookingStore.CreateBooking` | src/contexts/BookingContext.tsx:106-144 | appends the new booking with the generated reference, updates the customers as `RecordBooking` says, returns the booking's document id and keeps the invariant |
| `BookingContext.BookingStore.UpdateBookingStatus` | src/contexts/BookingContext.tsx:146-156 | only the status of the booking with that document id changes, and customers stay as they were; it reports failure and changes nothing when no such booking exists |
| `NewBooking.FindService` | src/app/bookings/new/page.tsx:63 | the index of the first catalogue entry with the id, or none exactly when no entry has it |
| `NewBooking.PriceOf` | src/app/bookings/new/page.tsx:63-64 | defines a selected id's price: the found service's price, or 0 when none is found; stated by `PriceOfFirstMatch` |
| `NewBooking.NameOf` | src/app/bookings/new/page.tsx:86-87 | defines a selected id's name: the found service's name, or `''` when none is found; stated by `NameOfFirstMatch` |
| `NewBooking.FirstMatchIsFound` | src/app/bookings/new/page.tsx:63 | the catalogue lookup returns the position of the first entry with the id |
| `NewBooking.PriceOfFirstMatch` | src/app/bookings/new/page.tsx:63-64 | the first matching service's price, or 0 for an id missing from the catalogue |
| `NewBooking.NameOfFirstMatch` | src/app/bookings/new/page.tsx:86-87 | the first matching service's name, or `''` for an id missing from the catalogue |
| `NewBooking.DefaultCatalogueLookup` | src/contexts/BookingContext.tsx:37-47 | in the default catalogue every service's own id looks up its own price and name |
| `NewBooking.CalculateTotal` | src/app/bookings/new/page.tsx:61-66 | defines the total as the left-to-right sum of the selected ids' prices; its properties are `TotalAppend`, `TotalCounts`, `TotalOfUnknown` and the two toggle lemmas |
| `NewBooking.TotalAppend` | src/app/bookings/new/page.tsx:61-66 | the total of two concatenated selections is the sum of their totals |
| `NewBooking.TotalCounts` | src/app/bookings/new/page.tsx:61-66 | the total is the total of the selection with every occurrence of an id removed, plus the id's price once per occurrence |
| `NewBooking.TotalOfUnknown` | src/app/bookings/new/page.tsx:64 | ids missing from the catalogue contribute nothing |
| `NewBooking.Without` | src/app/bookings/new/page.tsx:57 | defines `filter(id => id !== serviceId)`; stated by `WithoutRemoves`, `WithoutAbsent` and `WithoutAppend` |
| `NewBooking.ServiceNames` | src/app/bookings/new/page.tsx:85-88 | one name per selected id, in order: the matching service's name, or `''` for an unknown id |
| `NewBooking.WithoutRemoves` | src/app/bookings/new/page.tsx:57 | the filter drops every occurrence of the id and keeps every other id, in order and as often as it was selected |
| `NewBooking.WithoutAbsent` | src/app/bookings/new/page.tsx:57 | removing an id that is not selected leaves the selection unchanged |
| `NewBooking.WithoutAppend` | src/app/bookings/new/page.tsx:57 | removing an id from two joined selections removes it from each |
| `NewBooking.Toggle` | src/app/bookings/new/page.tsx:52-59 | checking appends the id; unchecking removes every occurrence and keeps every other id, in order and with its multiplicity |
| `NewBooking.ToggleOnOff` | src/app/bookings/new/page.tsx:52-59 | checking then unchecking an unselected id restores the selection |
| `NewBooking.TotalToggleOn` | src/app/bookings/new/page.tsx:52-66 | checking a service raises the total by its price |
| `NewBooking.TotalToggleOff` | src/app/bookings/new/page.tsx:52-66 | unchecking a service lowers the total by its price once per occurrence |
| `NewBooking.YearValue` | src/app/bookings/new/page.tsx:41 | the parsed year when `parseInt` gives a non-zero number, otherwise the current year |
| `NewBooking.YearOfNumber` | src/app/bookings/new/page.tsx:41 | a typed non-zero year is stored as that number |
| `NewBooking.YearOfText` | src/app/bookings/new/page.tsx:41 | input without digits stores the current year |
| `NewBooking.BuildBookingData` | src/app/bookings/new/page.tsx:71-93 | refuses exactly an empty selection, with its message; otherwise a pending booking with the form's fields, the total of the selection, the selection's service names, an empty customer id and no payment link |
| `NewBooking.NewBookingForm.constructor` | src/app/bookings/new/page.tsx:20-32 | the initial form: empty texts, the current year, no services, the current date-time text |
| `NewBooking.NewBookingForm.HandleInputChange` | src/app/bookings/new/page.tsx:34-50 | each input replaces exactly its own field; the year input stores `YearValue` |
| `NewBooking.NewBookingForm.HandleServiceToggle` | src/app/bookings/new/page.tsx:52-59 | only the selection changes, as `Toggle` says |
| `NewBooking.NewBookingForm.HandleSubmit` | src/app/bookings/new/page.tsx:68-109 | an empty selection is refused and the store is untouched; otherwise the booking built from the form, priced and named from the store's catalogue, is created in the store and its document id returned |
| `BookingsList.FilteredBookings` | src/app/bookings/page.tsx:23-32 | a subsequence of the bookings holding exactly those that match the search and the status filter |
| `BookingsList.FilteredMember` | src/app/bookings/page.tsx:24-31 | a booking is listed iff it is stored, its lowercased reference or name contains the lowercased term or its phone contains the term, and the filter is `all` or its status |
| `BookingsList.EmptySearchShowsAll` | src/app/bookings/page.tsx:24-29 | an empty search with `all` lists every booking in order |
| `BookingsList.StatusFilterExact` | src/app/bookings/page.tsx:29 | filtering by a status's name keeps exactly the bookings with that status |
| `BookingsList.SortKeyOf` | src/app/bookings/page.tsx:36-48 | each of the five select values gives its own sort key; any other text gives the no-op key |
| `BookingsList.Compare` | src/app/bookings/page.tsx:35-50 | defines the comparator of each key; its order is stated by `PrecedesTotal`, `PrecedesTransitive` and `SortOrders` |
| `BookingsList.PrecedesTotal` | src/app/bookings/page.tsx:35-50 | any two bookings are ordered one way or the other under every key |
| `BookingsList.PrecedesTransitive` | src/app/bookings/page.tsx:35-50 | each key's order is transitive |
| `BookingsList.Insert` | src/app/bookings/page.tsx:35 | inserting adds exactly the one booking to the list's contents |
| `BookingsList.InsertSorted` | src/app/bookings/page.tsx:35-50 | inserting into a sorted list keeps it sorted |
| `BookingsList.SortBookings` | src/app/bookings/page.tsx:35 | the sorted list is a permutation of its input |
| `BookingsList.SortBookingsSorted` | src/app/bookings/page.tsx:35-50 | the sorted list is in the key's order |
| `BookingsList.SortOrders` | src/app/bookings/page.tsx:37-46 | newest: non-increasing creation time; oldest: non-decreasing; amount-high: non-increasing amount; amount-low: non-decreasing; customer: names in order |
| `BookingsList.UnrecognisedKeepsOrder` | src/app/bookings/page.tsx:47-48 | an unknown key leaves the filtered order as it was |
| `BookingsList.Counts` | src/app/bookings/page.tsx:53-59 | `all` is the number of bookings, and no status count exceeds it |
| `BookingsList.CountStatus` | src/app/bookings/page.tsx:55-58 | defines one status's count as a filter's length; stated by `Counts`, `CountsAddUp` and `CountMatchesList` |
| `BookingsList.CountsAddUp` | src/app/bookings/page.tsx:53-59 | the four status counts add up to `all` |
| `BookingsList.CountMatchesList` | src/app/bookings/page.tsx:55-58 | each status count is the length of the list that the status filter shows for an empty search |
| `Receipts.PaidBookings` | src/app/receipts/page.tsx:20-22 | a subsequence of the bookings holding exactly the paid and completed ones |
| `Receipts.PaidMember` | src/app/receipts/page.tsx:20-22 | a booking has a receipt iff it is stored and paid or completed |
| `Receipts.ReceiptSearch` | src/app/receipts/page.tsx:25-29 | a subsequence of the paid bookings holding exactly those matching the search |
| `Receipts.ReceiptSearchSameRule` | src/app/receipts/page.tsx:25-29 | the receipt search is the bookings-list filter with status `all`, applied to the paid bookings |
| `Receipts.WorkshopDetails` | src/app/receipts/page.tsx:32-34 | each detail is its setting when set and non-empty, else its fixed default; none is empty |
| `Receipts.UnconfiguredWorkshop` | src/app/receipts/page.tsx:32-34 | with nothing configured the receipt names AutoCare Workshop, +1234567890 and 123 Main St, City, State 12345 |
| `Receipts.ServiceRowsAppend` | src/app/receipts/page.tsx:81 | the rows of concatenated service lists are the concatenated rows |
| `Receipts.ServiceRowsSplit` | src/app/receipts/page.tsx:81 | the rows are those before a service, its own row, then those after it, so rows follow booking order |
| `Receipts.ServiceRows` | src/app/receipts/page.tsx:81 | defines the joined table rows; stated by `ServiceRowsAppend` and `ServiceRowsSplit` |
| `Receipts.NotesSection` | src/app/receipts/page.tsx:85 | the notes block is non-empty iff notes are present and non-empty, and it contains the notes |
| `Receipts.TotalLine` | src/app/receipts/page.tsx:88 | the total line begins with `Total Amount: $` |
| `Receipts.TotalLineReadsBack` | src/app/receipts/page.tsx:88 | what follows the label parses back to the booking's amount |
| `Receipts.ReceiptListsServices` | src/app/receipts/page.tsx:31-99 | the receipt contains a table row for every service of the booking |
| `Receipts.ReceiptShowsTotal` | src/app/receipts/page.tsx:87-89 | the receipt contains the total line for the booking's amount |
| `Receipts.ReceiptShowsNotes` | src/app/receipts/page.tsx:85 | the receipt contains the notes block |
| `Receipts.ReceiptNamesWorkshop` | src/app/receipts/page.tsx:91-93 | the receipt thanks the customer in the workshop's name |
| `Receipts.ReceiptContent` | src/app/receipts/page.tsx:31-99 | defines the receipt document; what it contains is stated by `ReceiptListsServices`, `ReceiptShowsTotal`, `ReceiptShowsNotes` and `ReceiptNamesWorkshop` |
| `Receipts.DownloadFileName` | src/app/receipts/page.tsx:117 | the file name is 13 characters longer than the booking reference |
| `Receipts.DownloadFileNameRoundTrip` | src/app/receipts/page.tsx:117 | the booking reference can be read back from the file name |
| `Receipts.ReceiptStatusColor` | src/app/receipts/page.tsx:124-133 | green exactly for paid, blue exactly for completed, gray exactly for the rest |
| `Customers.SearchCustomer` | src/app/customers/page.tsx:19-22 | the first customer whose phone contains the search text, and nobody exactly when no phone contains it |
| `Customers.EmptySearchPicksFirst` | src/app/customers/page.tsx:20 | an empty search selects the first customer of a non-empty list |
| `Customers.SearchOwnPhoneFinds` | src/app/customers/page.tsx:20 | searching a listed customer's own phone always finds someone |
| `Customers.CustomerBookings` | src/app/customers/page.tsx:24-29 | exactly the bookings with the selected customer's phone or with an id in its history, each as often as stored, newest first; nothing when nobody is selected |
| `Customers.CustomerBookingsMember` | src/app/customers/page.tsx:25-27 | a booking is in the history iff it is stored and belongs to the selected customer |
| `Customers.ListedCustomers` | src/app/customers/page.tsx:210 | at most twelve customers, the first ones, all of them when there are twelve or fewer |
| `Customers.CustomerStatusColor` | src/app/customers/page.tsx:31-44 | each status has its own colour class |
| `Customers.CustomerStatusColorsDistinct` | src/app/customers/page.tsx:31-44 | different statuses get different classes |
| `Customers.CustomerHistory.constructor` | src/app/customers/page.tsx:16-17 | empty search, nobody selected |
| `Customers.CustomerHistory.SetSearchPhone` | src/app/customers/page.tsx:16 | typing changes only the search text |
| `Customers.CustomerHistory.HandleSearch` | src/app/customers/page.tsx:19-22 | selects `SearchCustomer` of the current text and leaves the text alone |
| `Customers.CustomerHistory.SelectCustomer` | src/app/customers/page.tsx:214-217 | clicking selects the customer and puts its phone in the search box |
| `Dashboard.TotalRevenueIsPaidAmounts` | src/app/dashboard/page.tsx:29-31 | revenue equals the sum over all bookings of the amount of each paid or completed one, so pending and cancelled bookings add nothing and revenue is never negative |
| `Dashboard.TotalRevenueAppend` | src/app/dashboard/page.tsx:29-31 | a new booking raises revenue by its amount exactly when it is paid or completed |
| `Dashboard.TotalRevenue` | src/app/dashboard/page.tsx:29-31 | defines revenue as the sum over the paid-or-completed filter; stated by `TotalRevenueIsPaidAmounts` and `TotalRevenueAppend` |
| `Dashboard.CompletedBookings` | src/app/dashboard/page.tsx:33 | at most the number of bookings |
| `Dashboard.CompletedBookingsIsCount` | src/app/dashboard/page.tsx:33 | the completed-jobs figure equals a count that adds one for each completed booking |
| `Dashboard.CompletedCountExtremes` | src/app/dashboard/page.tsx:33 | that count is at most the number of bookings, equals it iff all are completed, and is 0 iff none is |
| `Dashboard.CompletedBookingsExtremes` | src/app/dashboard/page.tsx:33 | equals the number of bookings iff all are completed, and 0 iff none is |
| `Dashboard.TodayShown` | src/app/dashboard/page.tsx:123 | the first min(n, 3) of today's n bookings, in order |
| `Dashboard.ViewAllWhenHidden` | src/app/dashboard/page.tsx:126 | "View All" is offered iff some booking of today is not shown |
| `Dashboard.ShowViewAll` | src/app/dashboard/page.tsx:126 | defines the `length > 3` test; stated by `ViewAllWhenHidden` |
| `Dashboard.PendingShown` | src/app/dashboard/page.tsx:158 | the first min(n, 5) of the n pending payments, in order, all pending |
| `BookingCard.Actions` | src/components/BookingCard.tsx:100-130 | pending: send payment link and mark paid; paid: mark completed; completed and cancelled: no buttons |
| `BookingCard.CardTransitionsExact` | src/components/BookingCard.tsx:113-124 | the card can move pending to paid and paid to completed, and nothing else |
| `BookingCard.Target` | src/components/BookingCard.tsx:113-124 | defines the status each button writes; with `Actions` it gives `CardTransitionsExact` |
| `BookingCard.Run` | src/components/BookingCard.tsx:100-130 | defines a sequence of presses on the card; stated by `RunMonotone` |
| `BookingCard.RunMonotone` | src/components/BookingCard.tsx:100-130 | any sequence of presses never moves a booking backwards, and it ends cancelled iff it started cancelled |
| `BookingCard.CardStatusColor` | src/components/BookingCard.tsx:18-31 | each status has its own colour class |
| `BookingCard.Press` | src/components/BookingCard.tsx:33-39 | the payment-link button requests a link with the booking's document id and phone and leaves the store alone; the other buttons rewrite only that booking's status to their target |
| `AuthContext.DefaultPin` | src/contexts/AuthContext.tsx:47 | the configured PIN when set and non-empty, else `1234`; never empty |
| `AuthContext.FindStaffByPin` | src/contexts/AuthContext.tsx:64-76 | the first staff record with the PIN, and none exactly when no record has it |
| `AuthContext.LoginResult` | src/contexts/AuthContext.tsx:42-94 | the default PIN gives the demo staff member; another PIN gives nobody when the query fails, else the first matching record |
| `AuthContext.LoginSucceedsIff` | src/contexts/AuthContext.tsx:42-94 | login succeeds iff the PIN is the default, or the query works and some record has the PIN |
| `AuthContext.UnconfiguredPinLogsIn` | src/contexts/AuthContext.tsx:47-61 | with no PIN configured (unset or empty), `1234` logs in as `demo-staff-1` whatever the records |
| `AuthContext.AuthSession.IsAuthenticated` | src/contexts/AuthContext.tsx:23 | true iff a staff member is set |
| `AuthContext.AuthSession.constructor` | src/contexts/AuthContext.tsx:20-21 | nobody logged in, loading |
| `AuthContext.AuthSession.Restore` | src/contexts/AuthContext.tsx:25-40 | a remembered non-empty id restores a staff member with that id; otherwise staff is unchanged; loading ends |
| `AuthContext.AuthSession.Login` | src/contexts/AuthContext.tsx:42-94 | returns whether `LoginResult` found someone; on success that staff member is set and its id remembered; on failure staff and the remembered id are unchanged; loading is over afterwards |
| `AuthContext.AuthSession.Logout` | src/contexts/AuthContext.tsx:96-100 | nobody is logged in and nothing is remembered |
| `Text.ParseIntOfIntToString` | src/app/bookings/new/page.tsx:41 | `parseInt` reads back any integer's decimal text |
| `Text.ParseIntNoDigits` | src/app/bookings/new/page.tsx:41 | `parseInt` of text without digits is not a number |
| `Text.ParseInt` | src/app/bookings/new/page.tsx:41 | defines `parseInt` on leading whitespace, a sign and decimal digits; stated by `ParseIntOfIntToString` and `ParseIntNoDigits` |
| `Text.SliceLast` | src/contexts/BookingContext.tsx:98 | `slice(-n)` keeps the last n characters, or all of a shorter text; `slice(-0)` keeps all of it |
| `Text.PadStart` | src/contexts/BookingContext.tsx:99-101 | `padStart` reaches the width by filling in front, and never shortens the text |
| `Text.ContainsAt` | src/app/bookings/page.tsx:25-27 | `includes` holds iff the text occurs at some position |
| `Text.ToLowerIdempotent` | src/app/bookings/page.tsx:25-26 | lowercasing twice is lowercasing once |
| `Text.LocaleCompare` | src/app/bookings/page.tsx:46 | 0 iff the names are equal, and non-positive iff the first comes first in the order |
| `Text.LexLeTotal` | src/app/bookings/page.tsx:46 | any two names are ordered one way or the other |
| `Text.LexLeAntisymmetric` | src/app/bookings/page.tsx:46 | names ordered both ways are equal |
| `Text.LexLeTransitive` | src/app/bookings/page.tsx:46 | the name order is transitive |
| `Seqs.FilterMember` | src/app/bookings/page.tsx:23 | an element survives a filter iff it is in the input and passes the test |

## Left out

- The remote document store is not modelled: the live listeners, the writes, the queries and the timestamp conversion. The collections are in-memory sequences, and the document ids the store would assign are parameters.
- The store appends each new booking at the end, and `RecordBooking` appends a new customer at the end: both collections are kept in creation order, not newest-first. The listeners order both by `createdAt` descending (`src/contexts/BookingContext.tsx:57-60` and `:75-78`), so in the source a new customer comes first. This changes which customer `Customers.EmptySearchPicksFirst` picks on an empty search, and which twelve `Customers.ListedCustomers` shows, for a given store history; both lemmas hold of whatever order the sequence has.
- `BookingContext.BookingStore.CreateBooking` requires fresh document ids for the booking and the new customer. It assumes the writes succeed; a failed remote write that would throw is not modelled.
- `BookingContext.BookingStore.UpdateBookingStatus` returns `false` for an unknown document id where the source's write throws.
- `sendPaymentLink` is a remote function call with a demo fallback that only shows messages. `BookingCard.Press` models only the request it makes: the booking's document id and phone.
- The payment link the call may store on the booking is not modelled, nor is the payment-link call that follows a successful submit in `NewBooking.NewBookingForm.HandleSubmit`.
- The clock and the random number are parameters. Today's date is compared by UTC calendar day, and local time zones are not modelled.
- Formatting dates for display is not modelled; the receipt takes its two date texts as parameters. Nor is reading the schedule text as a date; `HandleSubmit` takes that instant as a parameter.
- `Receipts.ReceiptContent` keeps the receipt's markup and order. It does not reproduce the template's line breaks and indentation, nor its styles beyond one fixed block.
- `Text.LocaleCompare`: the locale-aware comparison of customer names is modelled as code-point order.
- `Text.ToLower`: lowercasing covers ASCII letters only.
- `Text.ParseInt`: models leading whitespace, an optional sign and decimal digits; hexadecimal prefixes are not modelled, since the year input is numeric.
- Amounts and years are unbounded integers. JavaScript number precision is not modelled.
- Concurrency is not modelled: the customer update reads a local snapshot and is not atomic in the source. Creation is one sequential step here.
- In `AuthContext.FindStaffByPin`, the query's order is the order of the records passed in.
- In `AuthContext.AuthSession.Login`, a record found by PIN keeps its own stored fields. The source spreads the document's data after the document id, which could override the id field; that is not modelled.
- Remembering the staff id in browser storage is the `storedStaffId` field.
- The `default` branches of the card's and the customer page's colour switches (`src/components/BookingCard.tsx:28`, `src/app/customers/page.tsx:41`) cannot be reached, because the status type is closed. The receipts switch's `default` is reached, for pending and cancelled bookings, and `Receipts.ReceiptStatusColor` models it.
- `getCustomerBookings` takes a customer id argument that it never reads; `Customers.CustomerBookings` has no such parameter.
- Not modelled, because they are presentation or routing only: the login page's four-digit gate, the layout and sidebar components, and the application layout.
- Not modelled: the dashboard's chart data, which is static demo data.
- Not modelled: printing, the download itself (blob, link and click), and the notification toasts.
