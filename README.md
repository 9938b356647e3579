# List screens and route guard of the tkotizo CMS front end

The CMS front end has five list screens: purchase orders, users, invoices, commissions and
providers. Each one re-implements the same client-side list controller:

- It keeps the last fetched collection.
- It derives a filtered list by a case-insensitive substring search over a few fields per
  record.
- It keeps a 1-based current page. The page goes back to 1 whenever the search term or the
  collection changes.
- It shows 10 rows per page, with Previous/Next buttons clamped by `Math.max` / `Math.min`.
  Each button is disabled on its bound.
- It shows a "not found" message when the filtered list is empty.

Around the controller, the purchase order, user and invoice screens offer row actions chosen by
status: approve, cancel, send to a provider, edit the amount, activate, deactivate, create a
purchase order. The form submissions (update amount, send to a provider, create a purchase
order) are guarded by local checks. Every action except creating a purchase order refetches
the list on a 2xx response; creating one shows a success state instead. A middleware
redirects requests for protected pages to `/login` when the request has no `token` cookie.

The Dafny modules follow that structure:

- `Text`: ASCII lower-casing, `startsWith` and `includes`, and `Number.prototype.toString` for
  integers.
- `Paging`: page count, the page slice with JavaScript `slice` clamping, Previous/Next.
- `Filtering`: the generic search filter and its algebra.
- `Records`: the records and the fields each screen searches.
- `RowActions`: the status labels and which buttons each row offers.
- `Forms`: the submit guards, the response reading and the provider drop-down.
- `ListView`: the `ListController` class.
- `Screens`: the purchase order, user and invoice screen classes.
- `Middleware`: the route guard.

React's two phases are kept apart in `ListView`. A handler (fetch completion, search input,
page click) sets state. After the render, the filter effect runs again if the search term
changed by value or the collection changed by identity. Identity is modelled by a version
counter that every successful fetch bumps. The effect stores the filtered list and sets the
page to 1. `Refresh` and `SetSearchTerm` are a handler followed by its effect. Network
responses and the list returned by a refetch are method parameters.

Behaviour of the code a reader may not expect:

- An approved purchase order or invoice still offers Cancel. Approval is not terminal.
- `totalPages` is 0, not 1, for an empty filtered list. There "Page 1 of 0" shows, Next stays
  enabled, and one click sets the page to 0. `Paging.EmptyListNextReachesPageZero` states
  this.
- A successful approve refetches the list. The new collection then resets the page to 1, so
  the screen does not stay on the page it was on.
- The invoice filter reads `invoice.user`, while the table renders
  `invoice.purchaseOrder?.user`. The model's search follows the filter.

## Model

| member | source | states |
|---|---|---|
| Text.Lower | app/purchase-orders/list/page.tsx:88-94 | `toLowerCase` on ASCII: same length, each upper-case letter mapped to its lower-case letter, every other character kept |
| Text.LowerHasNoUpper | app/purchase-orders/list/page.tsx:88-94 | a lower-cased string holds no upper-case letter |
| Text.LowerIdempotent | app/purchase-orders/list/page.tsx:88-94 | lower-casing twice equals lower-casing once, so comparing lower-cased field against lower-cased term is case-insensitive |
| Text.ContainsIffOccurs | app/purchase-orders/list/page.tsx:91-94 | `includes` holds iff the needle occurs at some index of the haystack |
| Text.EmptyIsContained | app/purchase-orders/list/page.tsx:88-94 | every string includes the empty string, which is why an empty search keeps every row |
| Text.StartsWith | app/middlewares/auth.tsx:9 | `startsWith`: the prefix fits in the string and agrees with it position by position |
| Text.Contains | app/purchase-orders/list/page.tsx:91-94 | `includes`: a contained string is never longer than the haystack, and a string the haystack ends with is contained |
| Text.NatToDecimal | app/commissions/list/page.tsx:38 | the digits of a natural number: at least one, all decimal digits, no leading zero |
| Text.IntToDecimal | app/commissions/list/page.tsx:38 | `toString` of an integer: a leading '-' exactly for negatives, then at least one decimal digit and nothing else, and those digits read back as the absolute value of n; no upper-case letter |
| Text.DecimalRoundTrip | app/commissions/list/page.tsx:38 | reading the decimal digits of a natural number back gives the number |
| Text.DecimalIsCaseless | app/commissions/list/page.tsx:38 | an id printed in decimal is unchanged by lower-casing |
| Paging.TotalPages | app/purchase-orders/list/page.tsx:173 | `Math.ceil(n / 10)`: the smallest page count whose pages hold all n rows (0 for an empty list) |
| Paging.SliceIndex | app/purchase-orders/list/page.tsx:175 | how `slice` reads an index: a negative index counts from the end, and the result is clamped to the list's bounds |
| Paging.JsSlice | app/purchase-orders/list/page.tsx:174-175 | `Array.prototype.slice`: never longer than the list, and for non-negative bounds the rows from the clamped start to the clamped end |
| Paging.PageSlice | app/purchase-orders/list/page.tsx:174-175 | the rows of page p: at most 10 rows of the list, exactly rows (p-1)*10 up to p*10 for p >= 1, non-empty for every page from 1 to totalPages, empty for page 0 |
| Paging.PaginateIsPrefix | app/purchase-orders/list/page.tsx:172-175 | pages 1 to k laid end to end are the first 10k rows of the list |
| Paging.PagesReassemble | app/purchase-orders/list/page.tsx:172-175 | pages 1 to totalPages laid end to end are the whole list |
| Paging.RowOnItsPage | app/purchase-orders/list/page.tsx:172-175 | row i is shown on page i/10 + 1, at position i mod 10 |
| Paging.Previous | app/purchase-orders/list/page.tsx:334 | Previous's update: one page back from page 2 or later, otherwise page 1; never below 1 |
| Paging.PreviousDisabled | app/purchase-orders/list/page.tsx:335 | Previous is disabled exactly when a click would leave the page where it is |
| Paging.Next | app/purchase-orders/list/page.tsx:344 | Next's update: one page on while before totalPages, otherwise totalPages; never above totalPages |
| Paging.NextDisabled | app/purchase-orders/list/page.tsx:345 | Next is disabled exactly when a click would leave the page where it is |
| Paging.NavigationStaysInRange | app/purchase-orders/list/page.tsx:333-349 | on a page from 1 to totalPages, Previous and Next stay in that range, a button is disabled exactly when it would not move, and an enabled button moves by one |
| Paging.NavigationKeepsPageInRange | app/purchase-orders/list/page.tsx:333-349 | Previous and Next keep the page within the pages the filtered list has |
| Paging.EmptyListNextReachesPageZero | app/purchase-orders/list/page.tsx:172-175 | for an empty list there are 0 pages, Next is enabled on page 1 and moves to page 0, page 0 shows no rows, and Previous from 0 goes back to 1 |
| Filtering.Filter | app/purchase-orders/list/page.tsx:87-98 | the search result is a subsequence of the collection holding exactly the records some field of which includes the lower-cased term |
| Filtering.Matches | app/purchase-orders/list/page.tsx:88-95 | a matching record has a field at least as long as the term; with an empty term a record matches iff it has a searchable field |
| Filtering.SubsequenceReflexive | app/purchase-orders/list/page.tsx:29-30 | a collection is a subsequence of itself, as when a fetch stores the same data as collection and filtered list |
| Filtering.FilterAppend | app/purchase-orders/list/page.tsx:89-96 | filtering a concatenation is concatenating the filtered parts, so record order is kept |
| Filtering.FilterSingle | app/purchase-orders/list/page.tsx:89-96 | a single record is kept iff it matches |
| Filtering.FilterIdempotent | app/purchase-orders/list/page.tsx:87-98 | filtering the filtered list again by the same term changes nothing |
| Filtering.FilterIgnoresTermCase | app/purchase-orders/list/page.tsx:88 | a term and its lower-cased form select the same records |
| Filtering.FilterEmptyTermKeepsAll | app/purchase-orders/list/page.tsx:87-98 | with an empty term every record that has a searchable field is kept, in order |
| Filtering.FilterEmptyIff | app/purchase-orders/list/page.tsx:327-329 | the filtered list is empty iff no record of the collection matches |
| Filtering.KeptIffMatches | app/purchase-orders/list/page.tsx:89-96 | a record of the collection is in the filtered list exactly when it matches the term |
| Records.OrderKeptIff | app/purchase-orders/list/page.tsx:88-95 | an order is kept iff the lower-cased term occurs in its lower-cased description, status, user name or user e-mail |
| Records.UserKeptIff | app/users/list/page.tsx:38-47 | a user is kept iff the lower-cased term occurs in the lower-cased name or e-mail |
| Records.InvoiceKeptIff | app/invoices/list/page.tsx:57-67 | an invoice is kept iff the lower-cased term occurs in its lower-cased status, user name or user e-mail |
| Records.CommissionKeptIff | app/commissions/list/page.tsx:34-43 | a commission is kept iff the lower-cased term occurs in the decimal purchase order id or the lower-cased percentage; the id string has no letters, so the search stays case-insensitive |
| Records.ProviderKeptIff | app/providers/list/page.tsx:34-43 | a provider is kept iff the lower-cased term occurs in the lower-cased name or contact e-mail |
| Records.OrderHaystacks | app/purchase-orders/list/page.tsx:91-94 | an order is searched in four fields, description, status, user name and user e-mail, each lower-cased: no upper-case letter, and each as long as its field |
| Records.UserHaystacks | app/users/list/page.tsx:42-43 | a user is searched in name and e-mail, lower-cased and as long as the fields |
| Records.InvoiceHaystacks | app/invoices/list/page.tsx:61-63 | an invoice is searched in status, user name and user e-mail, lower-cased and as long as the fields |
| Records.CommissionHaystacks | app/commissions/list/page.tsx:38-39 | a commission is searched in the purchase order id printed in decimal (optional '-', then digits that read back as the id's magnitude) and the lower-cased percentage |
| Records.ProviderHaystacks | app/providers/list/page.tsx:38-39 | a provider is searched in name and contact e-mail, lower-cased and as long as the fields |
| Records.OrdersEmptyTermKeepsAll | app/purchase-orders/list/page.tsx:87-98 | with an empty search box every purchase order is listed, in order |
| Records.PendSearchKeepsPendingOrders | app/purchase-orders/list/page.tsx:88-95 | searching "pend" over pending, approved and cancelled orders keeps only the pending one |
| Records.KeepsFirstOfThree | app/purchase-orders/list/page.tsx:89-96 | of three orders where only the first matches, the filter keeps just the first |
| Records.StatusSearch | app/purchase-orders/list/page.tsx:92 | an order with status "pending" matches "pend", and a status lacking one of its letters does not |
| Records.LacksLetter | app/purchase-orders/list/page.tsx:91-94 | a field lacking one of the term's characters does not include the term |
| RowActions.OrderStatusLabel | app/purchase-orders/list/page.tsx:228 | the status column reads Aprobada, Pendiente and Cancelada exactly for approved, pending and cancelled, and N/A for every other status |
| RowActions.OrderActions | app/purchase-orders/list/page.tsx:246-320 | approve is offered exactly for pending and cancelled orders; every other order gets cancel and send-to-provider; the pencil never appears |
| RowActions.OrderActionsFollowLabel | app/purchase-orders/list/page.tsx:228-299 | approve is offered exactly on rows labelled Pendiente or Cancelada; an N/A row gets cancel and send-to-provider |
| RowActions.ApprovedOrderCanBeCancelled | app/purchase-orders/list/page.tsx:246-299 | an approved order is offered cancel and send-to-provider |
| RowActions.InvoiceStatusLabel | app/invoices/list/page.tsx:153 | the status column reads Aprobada, Pendiente and Cancelada exactly for approved, unpaid and cancelled, and N/A for every other status |
| RowActions.InvoiceActions | app/invoices/list/page.tsx:171-224 | approve exactly for unpaid and cancelled invoices, cancel otherwise, and the pencil always second |
| RowActions.InvoiceActionsFollowLabel | app/invoices/list/page.tsx:153-224 | approve is offered exactly on invoices labelled Pendiente or Cancelada |
| RowActions.UserActions | app/users/list/page.tsx:216-280 | an active user gets deactivate and create-order; every other user only gets activate |
| RowActions.UserToggleIsExclusive | app/users/list/page.tsx:216-280 | exactly one of activate and deactivate is offered |
| Forms.AmountSubmission | app/purchase-orders/list/page.tsx:365-371 | an update-amount request goes out iff the amount field is non-empty and the selected id is non-zero, and it carries that id and amount |
| Forms.AmountSubmissionEdges | app/invoices/list/page.tsx:267-276 | nothing is sent while no record is selected or the amount is empty; an amount of "0" is sent |
| Forms.ProviderSubmission | app/purchase-orders/list/page.tsx:423-431 | send-to-provider goes out iff a provider is chosen and the order id and file URL are set, and it posts the provider's contact e-mail |
| Forms.FindProvider | app/purchase-orders/list/page.tsx:443-447 | the drop-down selects the first fetched provider with the chosen id, and none when no provider has it or the placeholder is chosen |
| Forms.CreateOrderSubmission | app/users/list/page.tsx:56-75 | a create-order form is sent iff a file is chosen and the user id is non-zero; it carries the user, file and description, and an empty amount is sent as "0" |
| Forms.ClassifyToggle | app/users/list/page.tsx:107-116 | activate/deactivate succeed exactly on a 2xx response and report "not found" exactly on a 404 |
| Forms.IsOk | app/purchase-orders/list/page.tsx:24 | `response.ok`: a status in the 2xx class; a network failure is never ok |
| ListView.ListController.constructor | app/purchase-orders/list/page.tsx:6-9 | mounting starts with empty lists, an empty term and page 1, with the filter effect already run |
| ListView.ListController.VisibleRows | app/purchase-orders/list/page.tsx:172-175 | at most 10 rows, all from the filtered list; at rest, each one a record of the collection that matches the term |
| ListView.ListController.NotFoundShown | app/purchase-orders/list/page.tsx:327-329 | the message shows iff there are no pages; at rest, iff no record of the collection matches the term |
| ListView.ListController.ReceiveFetch | app/purchase-orders/list/page.tsx:21-33 | a successful fetch stores the data as both collection and filtered list under a new identity; a failed one changes nothing |
| ListView.ListController.InputSearchTerm | app/purchase-orders/list/page.tsx:198-203 | the search box changes only the term |
| ListView.ListController.RunFilterEffect | app/purchase-orders/list/page.tsx:87-98 | when the term or collection changed, the filtered list becomes the filtered collection and the page 1; otherwise nothing changes |
| ListView.ListController.Refresh | app/purchase-orders/list/page.tsx:21-33 | after a successful fetch and its effect, the collection is the new data, the filtered list is that data filtered by the current term, and the page is 1; a failed fetch changes nothing |
| ListView.ListController.SetSearchTerm | app/users/list/page.tsx:38-47 | a new term refilters the unchanged collection and resets the page to 1; the same term changes nothing |
| ListView.ListController.ClickPrevious | app/purchase-orders/list/page.tsx:333-339 | the page becomes `max(page - 1, 1)`, not moving on page 1, and stays in range |
| ListView.ListController.ClickNext | app/purchase-orders/list/page.tsx:343-349 | the page becomes `min(page + 1, totalPages)`, not moving on the last page, and stays in range |
| ListView.SearchResetsPage | app/invoices/list/page.tsx:57-67 | after any page move, a second different search starts again on page 1 of its own results |
| Screens.PurchaseOrderScreen.constructor | app/purchase-orders/list/page.tsx:6-16 | the screen mounts with no selection, no provider list and every modal closed |
| Screens.PurchaseOrderScreen.FetchProviders | app/purchase-orders/list/page.tsx:35-48 | the provider list is replaced on success and kept on failure |
| Screens.PurchaseOrderScreen.CompleteStatusChange | app/purchase-orders/list/page.tsx:56-72 | approve and cancel refetch the orders on a 2xx response, resetting the page to 1; a failed request or a failed refetch leaves the list unchanged |
| Screens.PurchaseOrderScreen.OpenUpdateModal | app/purchase-orders/list/page.tsx:75-78 | the pencil handler selects the order and opens the amount form |
| Screens.PurchaseOrderScreen.SubmitAmountForm | app/purchase-orders/list/page.tsx:101-124 | nothing is sent unless the guard passes; once sent, a 2xx closes the form, clears the waiting flag and refetches, and a failure leaves the form open and the waiting flag set; the list changes only when a 2xx is followed by a successful refetch |
| Screens.PurchaseOrderScreen.OpenProviderModal | app/purchase-orders/list/page.tsx:80-84 | the send-to-provider button selects the order and its file and opens the form |
| Screens.PurchaseOrderScreen.ChooseProvider | app/purchase-orders/list/page.tsx:443-447 | the drop-down's choice selects the provider `FindProvider` gives |
| Screens.PurchaseOrderScreen.SubmitProviderForm | app/purchase-orders/list/page.tsx:126-151 | nothing is sent unless the guard passes; once sent, the form closes at once, and a 2xx clears the waiting flag and refetches; the list changes only when a 2xx is followed by a successful refetch |
| Screens.UserScreen.constructor | app/users/list/page.tsx:9-15 | the screen mounts with no selected user, the form closed and no success shown |
| Screens.UserScreen.OpenCreateOrderModal | app/users/list/page.tsx:51-54 | the create-order button selects the user and opens the form |
| Screens.UserScreen.SubmitCreateOrderForm | app/users/list/page.tsx:56-95 | nothing is sent without a file and a user; once sent, a 2xx shows the success state and clears the waiting flag, and a failure leaves the waiting flag set (so the submit button stays disabled) |
| Screens.UserScreen.ToggleUserStatus | app/users/list/page.tsx:98-144 | activate and deactivate refetch the users only on a 2xx; a 404, any other failure, or a failed refetch leaves the list unchanged |
| Screens.InvoiceScreen.constructor | app/invoices/list/page.tsx:5-11 | the screen mounts with no selected invoice and the form closed |
| Screens.InvoiceScreen.CompleteStatusChange | app/invoices/list/page.tsx:33-49 | approve and cancel refetch the invoices on a 2xx response; a failed request or a failed refetch leaves the list unchanged |
| Screens.InvoiceScreen.OpenUpdateModal | app/invoices/list/page.tsx:52-55 | the pencil selects the invoice and opens the amount form |
| Screens.InvoiceScreen.SubmitAmountForm | app/invoices/list/page.tsx:70-89 | nothing is sent unless the guard passes; a 2xx closes the form and refetches, anything else keeps it open; the list changes only when a 2xx is followed by a successful refetch |
| Middleware.Decide | app/middlewares/auth.tsx:4-16 | a request is redirected iff its path is protected and it has no token cookie, and the redirect goes to `/login`; otherwise it continues |
| Middleware.IsProtected | app/middlewares/auth.tsx:7-9 | a protected path is at least as long as the shortest protected prefix and begins with '/' |
| Middleware.ProtectedIff | app/middlewares/auth.tsx:7-9 | a path is protected iff it starts with `/dashboard`, `/users/list` or `/providers/list` |
| Middleware.TokenAlwaysContinues | app/middlewares/auth.tsx:9-15 | a request with the cookie always continues |
| Middleware.SubpathsInheritProtection | app/middlewares/auth.tsx:9 | extending a protected path keeps it protected |
| Middleware.LoginIsNotProtected | app/middlewares/auth.tsx:7-12 | `/login` is not protected, so the redirect cannot loop |
| Middleware.PrefixTestExamples | app/middlewares/auth.tsx:7-9 | the test is a plain prefix test: `/users/listing` and `/dashboard2` are guarded; `/users`, `/invoices/list`, `/purchase-orders/list` and `/commissions/list` are not |
| Middleware.NotProtectedByMismatch | app/middlewares/auth.tsx:7-9 | a path that differs from every protected prefix at some position inside it is not protected |

## Left out

- HTTP requests are not modelled: URLs, methods, headers, JSON bodies and `FormData`. A handler's response and the refetched list are parameters. `alert` and `console` output is not modelled.
- A response whose body is not a list is not modelled. The model treats it like any other failed fetch.
- Overlapping requests are not modelled. Refetches that are not awaited and responses arriving out of order are outside the model; every handler finishes before the next starts.
- The 2-second timer after a purchase order is created (app/users/list/page.tsx:85-88) is not modelled. The timer clears the success state and closes the form.
- Closing a modal with its cancel or close button is not modelled. It only sets the open flag to false.
- The commission total on the users screen (app/users/list/page.tsx:196-203) is not modelled, because it is floating-point arithmetic.
- Date and locale formatting of table cells is not modelled.
- Text.Lower: only ASCII letters are lower-cased. JavaScript's full Unicode case mapping is not modelled.
- Records.InvoiceKeptIff: assumes `invoice.user` is present. A record without it makes the source filter throw, and the model does not represent that.
- Records.OrderKeptIff: assumes every searched field is present. A null description or user makes the source filter throw.
- Records.UserKeptIff, Records.ProviderKeptIff, Records.CommissionKeptIff: assume every searched field is present. A null `name`, `email`, `contact_email`, `purchase_order_id` or `commission_percentage` makes the source filter throw (app/users/list/page.tsx:42-43, app/providers/list/page.tsx:38-39, app/commissions/list/page.tsx:38-39), and the model does not represent that.
- Text.IntToDecimal: ids are JavaScript numbers (doubles), while the model uses unbounded integers. `toString` prints 1e21 and above in exponent form ("1e+21"), and ids above 2^53 lose precision. The commission search (app/commissions/list/page.tsx:38) matches against that string; the model assumes ids small enough to print as plain digits.
- Purchase order files are modelled as their URL string. A file picked in the create-order form is an optional string.
- The middleware's `config.matcher` (app/middlewares/auth.tsx:18-20) is not modelled. Which requests the framework passes to the guard is framework behaviour. The guard is modelled for every path.
- Authentication context, hooks, layout, navigation bars, charts, the dashboard and the login and register pages are not part of this model.

The commission and provider screens have no handlers beyond the shared list controller. In the model they are a `ListView.ListController` built with `Records.CommissionHaystacks` or `Records.ProviderHaystacks`.
