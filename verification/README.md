# Billing front end: API client, session and page logic

A Dafny model of the logic in a React billing front end. The front end talks to a REST backend through an axios client. It keeps a login session in browser storage. It shows customer, product, invoice, expense and sales pages, each with client-side filters.

The model covers three parts.

- **The API client** (`Api`, `src/services/api.jsx`).
  - The request interceptor adds a bearer token when one is stored.
  - The response interceptor runs `transformId`, a shallow per-record rewrite. It moves a truthy `_id` to `id` and turns the four date fields into dates. It is applied to an object body or mapped over an array body.
  - The error interceptor tears the session down on a 401.
  - `Api.Call` composes all three around a transport function. The transport stands for axios and the backend.
- **The session** (`Auth`, `src/context/AuthContext.jsx`). A state machine over the storage keys `authToken` and `user`, the current user, and the loading flag.
  - Its transitions are login, register, logout and the startup check, plus the render gate.
  - Every transition that calls the backend goes through `Api.Call`. So a 401 teardown and the response normalisation are part of the transition.
- **The pages** (`src/pages/*.jsx`):
  - the status badges;
  - the tab-and-search filters, which all share one filter, `Seqs.Select`, whose result is characterised as the unique order-preserving subsequence of the kept records (`Seqs.FilterUnique`);
  - the expense page's fetch, stats merge and delete;
  - the sales page's KPI derivation and `getStartDateForRange`.

JavaScript values are modelled by `Json.Value`. It includes `undefined`, `null`, and a `Date` built from a source value. Truthiness, property lookup and `||` are defined on it.

Dates in the sales page are computed with the day-number arithmetic of section 21.4.1 of ECMA-262, in module `Calendar`:
- DayFromYear, YearFromTime, MonthFromTime and DateFromTime;
- MakeDay, including month and day overflow, and WeekDay;
- the constructor's mapping of years 0-99 to 1900-1999.

`Calendar.RoundTrip` proves that the day number of every valid date converts back to that date. Every date-range case is stated on calendar dates and proved from it.

`transformId` rewrites only the top-level keys of a body, or of each element of an array body. So the `user` object inside a login body `{token: "t1", user: {_id: "u1"}}` keeps its `_id`, and it is stored and made current that way (`Api.NestedRecordKeepsNativeId`, `Auth.LoginScenario`). Likewise a list the backend wraps as `{expenses: [...]}` or `{invoices: [...]}` reaches the page with its records unchanged (`Expenses.ExpensesThroughClient`, `Sales.RecentInvoicesThroughClient`).

## Model

| member | source | states |
|---|---|---|
| Api.GetItem | src/services/api.jsx:15 | a stored key yields its string; a missing key yields null |
| Api.AttachToken | src/services/api.jsx:13-20 | a non-empty stored token adds exactly `Authorization: Bearer <token>`; otherwise the config is returned unchanged; verb, url, body and every other header are untouched |
| Api.RenameId | src/services/api.jsx:32-35 | a truthy `_id` becomes `id`, overwriting any old `id`, and `_id` is removed; with `_id` absent or falsy the record is unchanged; no other key changes |
| Api.ParseDate | src/services/api.jsx:38-49 | `new Date(v)` gives a (truthy) Date, and parsing a Date gives it back |
| Api.ConvertDate | src/services/api.jsx:38-40 | one truthy date field becomes `ParseDate` of itself; every other field and the key set are unchanged |
| Api.ConvertDates | src/services/api.jsx:38-49 | every truthy field among the listed date keys becomes `ParseDate` of its value; absent or falsy ones and all other keys are unchanged; the key set is preserved |
| Api.TransformRecord | src/services/api.jsx:31-52 | `transformId` on one value: non-objects pass through; the id move and the date parsing as above; no key other than `_id`, `id` and the four date keys is added, removed or changed, so nested values are not rewritten |
| Api.NormalizeBody | src/services/api.jsx:29-58 | an array body maps to an array of the same length, element i being `transformId` of element i; an object body is transformed; any other body is unchanged |
| Api.OnResponse | src/services/api.jsx:27-61 | the success interceptor keeps the status and normalises only the body |
| Api.Teardown | src/services/api.jsx:63-67 | both session keys removed, location `/login`, every other storage key unchanged |
| Api.OnError | src/services/api.jsx:62-70 | a 401 tears the session down, any other failure leaves the environment alone, and the error is rejected unchanged in both cases |
| Api.Call | src/services/api.jsx:13-70 | one call: the transport sees the token-bearing config; success returns the normalised response with the environment unchanged; failure returns the raw error, after a teardown exactly when it is a 401 |
| Api.LoginRequest | src/services/api.jsx:75 | login is a POST to `/auth/login` with the credentials as body and no headers of its own |
| Api.RegisterRequest | src/services/api.jsx:76 | register is a POST to `/auth/register` with the user data as body and no headers of its own |
| Api.CurrentUserRequest | src/services/api.jsx:77 | the session check is a GET of `/auth/user` with no body and no headers of its own |
| Api.AuthRequestsDistinct | src/services/api.jsx:13-20 | the three auth calls reach three different endpoints, and with a token stored the client adds no header other than `Authorization` to the call-site headers |
| Api.RenameIdIdempotent | src/services/api.jsx:32-35 | renaming the id twice equals renaming it once |
| Api.TransformRecordIdempotent | src/services/api.jsx:31-52 | `transformId` is idempotent |
| Api.NormalizeBodyIdempotent | src/services/api.jsx:54-58 | the whole body normalisation is idempotent |
| Api.CustomerRenameScenario | src/services/api.jsx:32-35 | `{_id, name, date}` renames to `{id, name, date}` |
| Api.CustomerRecordScenario | src/services/api.jsx:31-52 | `{_id: a, name: x, date: s}` becomes `{id: a, name: x, date: Date(s)}` |
| Api.CustomerListScenario | src/services/api.jsx:54-55 | the one-element list of that record normalises to the one-element list of the transformed record |
| Api.NestedRecordKeepsNativeId | src/services/api.jsx:31-52 | the rewrite is shallow: the `user` object inside a login body keeps its `_id` |
| Api.TeardownIdempotent | src/services/api.jsx:63-67 | tearing down twice equals tearing down once |
| Api.UnauthorizedCallEndsSession | src/services/api.jsx:62-70 | after any 401 call no token or user is stored, the location is `/login`, and the caller receives the raw error |
| Api.NormalizeKeepsPlainField | src/services/api.jsx:31-58 | reading a key the rewrite never touches gives the same value before and after normalisation, and normalisation keeps a body null or undefined exactly when it was |
| Api.NormalizedRecordsHaveNoNativeId | src/services/api.jsx:31-58 | after normalisation no top-level record has a truthy `_id`: neither an object body nor any element of an array body |
| Auth.Initial | src/context/AuthContext.jsx:12-13 | on mount there is no user and loading is true |
| Auth.FailureMessage | src/context/AuthContext.jsx:46-51 | the message is the backend's truthy `message` when present, else the fallback; with a non-empty fallback it is truthy |
| Auth.Authenticate | src/context/AuthContext.jsx:38-51 | success exactly when a non-null body arrived: both keys written from `token` and `user`, and the user is current; otherwise the state is the one after the call, and the message is the backend's or the fallback |
| Auth.Login | src/context/AuthContext.jsx:36-52 | in terms of the raw transport reply: success writes `authToken` and `user` and sets the current user; a null body fails with "Login failed" and changes nothing; an error fails with the backend message or "Login failed", and keeps storage and user unless it was a 401, which has torn the session down |
| Auth.Register | src/context/AuthContext.jsx:54-77 | the same transition as login against `/auth/register`, with the fallback "Registration failed" |
| Auth.Logout | src/context/AuthContext.jsx:79-83 | both keys removed and the user null; loading, location and every other key unchanged |
| Auth.LogoutIdempotent | src/context/AuthContext.jsx:79-83 | logging out twice equals logging out once |
| Auth.StartupCheck | src/context/AuthContext.jsx:15-34 | a request is issued exactly when a token is stored; with no token only loading changes; with one, success makes the normalised body the current user, and failure removes exactly the two session keys, keeps every other key and the current user, and leaves the location at `/login` only after a 401; loading ends false in every case |
| Auth.StartupOpensGate | src/context/AuthContext.jsx:95 | nothing renders on mount, and the children render after the startup check whatever its outcome |
| Auth.RendersChildren | src/context/AuthContext.jsx:95 | the children render exactly when loading is over |
| Auth.LoginThenRequestsCarryToken | src/context/AuthContext.jsx:39-45 | after a successful login with a non-empty string token, every request carries `Bearer <token>`; after logout requests go out unchanged |
| Auth.LoginScenario | src/context/AuthContext.jsx:39-45 | the body `{token: "t1", user: {_id: "u1"}}` stores "t1", and the nested user, still with `_id`, is the current and stored profile |
| Json.Get | src/services/api.jsx:31 | for the data keys the pages read, a present key of a plain object yields its value, and a missing key or a non-object yields `undefined` |
| Json.Or | src/pages/Expenses.jsx:52 | the JavaScript or-operator yields its left operand when truthy, else its right one |
| Json.Unwrap | src/pages/Expenses.jsx:38 | `data.key` or else `data`: the field when truthy, else the body itself; an array body is kept; a truthy body gives a truthy list |
| Text.Lower | src/pages/Customers.jsx:138 | lower-casing keeps the length and maps every character |
| Text.LowerIdempotent | src/pages/Customers.jsx:138 | lower-casing twice equals lower-casing once |
| Text.Contains | src/pages/Customers.jsx:138-140 | `includes` holds exactly when the needle occurs at some index |
| Text.ContainsEmpty | src/pages/Customers.jsx:138-140 | the empty needle is found in every string |
| Seqs.Select | src/pages/Customers.jsx:131-143 | the filter result is a subsequence of the input that contains exactly the kept elements, each as often as in the input; keeping everything returns the input |
| Seqs.FilterUnique | src/pages/Customers.jsx:131-143 | any subsequence with exactly the kept elements and their multiplicities is the filter result |
| Seqs.SelectAll | src/pages/Customers.jsx:131-143 | a test that rejects nothing gives back the whole list |
| Customers.StatusClass | src/pages/Customers.jsx:122-129 | green for Active, blue for New, yellow for Owing, and gray exactly for every other status |
| Customers.BadgesDistinct | src/pages/Customers.jsx:122-129 | the three labelled statuses get three different badges, none of them gray |
| Customers.FilterCustomers | src/pages/Customers.jsx:131-143 | the shown customers (tab and search) in input order with their multiplicities; an unrecognised tab with an empty query shows everyone |
| Customers.OwingTabIgnoresStatus | src/pages/Customers.jsx:135 | the "owing" tab keeps exactly the customers with a positive balance |
| Customers.StatusTabsSelectStatus | src/pages/Customers.jsx:133-134 | the "active" and "new" tabs keep exactly statuses "Active" and "New" |
| Customers.OtherTabsShowAll | src/pages/Customers.jsx:133-135 | any other tab id gives the same list as "all" |
| Customers.PhoneSearchIsCaseSensitive | src/pages/Customers.jsx:138-140 | "EXT" finds the phone "EXT-9", "ext" does not, although both lower-case alike |
| Inventory.StatusClass | src/pages/Inventory.jsx:40-47 | green, yellow and red for the three stock statuses, and gray exactly for every other status |
| Inventory.BadgesDistinct | src/pages/Inventory.jsx:40-47 | the three labelled statuses get three different badges, none of them gray |
| Inventory.FilterProducts | src/pages/Inventory.jsx:49-60 | the shown products in input order with their multiplicities; an unrecognised tab with an empty query shows every product |
| Inventory.StockTabsSelectStatus | src/pages/Inventory.jsx:51-53 | each stock tab keeps exactly its status |
| Inventory.OtherTabsShowAll | src/pages/Inventory.jsx:49-53 | any other tab id gives the same list as "all" |
| Inventory.SearchIgnoresQueryCase | src/pages/Inventory.jsx:56-57 | a query and its lower-cased form show the same products |
| Invoices.StatusClass | src/pages/Invoices.jsx:91-98 | green, yellow and red for Paid, Pending and Overdue, and gray exactly for every other status |
| Invoices.BadgesDistinct | src/pages/Invoices.jsx:91-98 | the three labelled statuses get three different badges, none of them gray |
| Invoices.FilterInvoices | src/pages/Invoices.jsx:100-111 | the shown invoices in input order with their multiplicities; an unrecognised tab with an empty query shows every invoice |
| Invoices.PaymentTabsSelectStatus | src/pages/Invoices.jsx:102-104 | each payment tab keeps exactly its status |
| Invoices.OtherTabsShowAll | src/pages/Invoices.jsx:100-104 | any other tab id gives the same list as "all" |
| Invoices.SearchIgnoresQueryCase | src/pages/Invoices.jsx:107-108 | a query and its lower-cased form show the same invoices |
| Expenses.Initial | src/pages/Expenses.jsx:9-17 | empty list, loading, no error; total, this month and last month 0 and a budget of 50000 |
| Expenses.FetchExpenses | src/pages/Expenses.jsx:35-45 | the list is `data.expenses` when truthy, else the body; a failed call or a null body sets "Failed to load expenses" and keeps the list; loading ends either way |
| Expenses.MergeStats | src/pages/Expenses.jsx:47-58 | total and this month both become the response total or 0; last month and budget are kept; a failed call changes nothing |
| Expenses.ExpensesThroughClient | src/pages/Expenses.jsx:35-45 | through the client, an array body is decoded with every record's `_id` already moved to `id`; a list wrapped under `expenses` is decoded exactly as the backend sent it; a failed call keeps the list and sets the error |
| Expenses.StatsThroughClient | src/pages/Expenses.jsx:47-58 | the cards merged from a call through the client equal those merged from the backend's raw reply, since `totalExpenses` is never rewritten |
| Expenses.WithoutId | src/pages/Expenses.jsx:64 | exactly the expenses with another id, in order and with their multiplicities |
| Expenses.DeleteExpense | src/pages/Expenses.jsx:60-70 | unconfirmed changes nothing; confirmed and successful removes exactly that id; confirmed and failed keeps the list and sets "Failed to delete expense"; no expense is ever added |
| Expenses.FilterExpenses | src/pages/Expenses.jsx:72-78 | the expenses whose description or category contains the query ignoring case, in order; an empty query keeps all |
| Expenses.TabIsIgnored | src/pages/Expenses.jsx:72-78 | the selected tab has no effect on the list |
| Expenses.DeleteRemovesId | src/pages/Expenses.jsx:60-64 | after a successful delete no expense has that id, and deleting it again changes nothing |
| Calendar.YearFromDay | src/pages/Sales.jsx:86 | the year found contains the day |
| Calendar.YearFromDayUnique | src/pages/Sales.jsx:86 | that year is the only one containing the day |
| Calendar.DaysInMonth | src/pages/Sales.jsx:102 | every month has 28 to 31 days |
| Calendar.MonthLengths | src/pages/Sales.jsx:102 | February has 29 days in leap years and 28 in common years, and the other months have the usual fixed lengths |
| Calendar.ToCivil | src/pages/Sales.jsx:86 | a day number converts to a valid date with that day number |
| Calendar.DayNumberInjective | src/pages/Sales.jsx:86 | distinct valid dates have distinct day numbers |
| Calendar.RoundTrip | src/pages/Sales.jsx:86 | every valid date is recovered from its day number |
| Calendar.MakeDay | src/pages/Sales.jsx:95 | for a month 0-11 the constructor's day number is the date's day number |
| Calendar.WeekDay | src/pages/Sales.jsx:92 | `getDay` is between 0 and 6 |
| Calendar.WeekDayStep | src/pages/Sales.jsx:92 | the next day has the next weekday, Saturday (6) wrapping to Sunday (0) |
| Calendar.EpochSunday | src/pages/Sales.jsx:92 | day 0 is 1970-01-01, a Thursday (4), and 1970-01-04 is a Sunday (0); with the step this fixes which days are Sundays |
| Calendar.OneMonthBack | src/pages/Sales.jsx:102 | `new Date(y, m - 1, d)` is day d of the previous month when that month has it, and otherwise runs on into month m |
| Sales.FullYear | src/pages/Sales.jsx:95 | the constructor reads years 0-99 as 1900-1999 and keeps every other year |
| Sales.QuarterMonth | src/pages/Sales.jsx:97 | `Math.floor(m / 3) * 3`, one of 0, 3, 6, 9, at most m and within 3 of it |
| Sales.WeekStart | src/pages/Sales.jsx:90-93 | today minus its weekday: a Sunday, 0-6 days back |
| Sales.FirstOfMonth | src/pages/Sales.jsx:94-95 | day 1 of the current month |
| Sales.FirstOfQuarter | src/pages/Sales.jsx:96-98 | day 1 of the quarter's first month in the same year |
| Sales.FirstOfYear | src/pages/Sales.jsx:99-100 | January 1 of the current year |
| Sales.SameDayLastMonth | src/pages/Sales.jsx:101-102 | the same day of the previous month (December of the previous year for January), or the overflow into the current month when the previous month is too short |
| Sales.StartDateForRange | src/pages/Sales.jsx:85-104 | "today" is today, and each named range gives its start as above; every other range gives the same day last month; the result is always a valid date |
| Sales.Initial | src/pages/Sales.jsx:9-18 | total sales, transactions and growth 0 and no average; no invoices, no error |
| Sales.FetchSalesData | src/pages/Sales.jsx:33-50 | total sales is revenue or 0, transactions is the invoice count or 0, an average exists exactly when both are truthy, and growth is 12.5; a failure keeps the previous figures |
| Sales.FetchRecentInvoices | src/pages/Sales.jsx:52-64 | the list is `data.invoices` when truthy, else the body; a failure sets "Failed to load recent transactions" and keeps the list |
| Sales.SalesDataThroughClient | src/pages/Sales.jsx:40-46 | the KPI figures from a call through the client equal those from the backend's raw reply, since `revenue` and `invoices` are never rewritten |
| Sales.RecentInvoicesThroughClient | src/pages/Sales.jsx:52-64 | through the client, an array body gives a list of the same length with no record holding a truthy `_id`; a list wrapped under `invoices` arrives exactly as the backend sent it; a failed call keeps the list and sets the error |
| Sales.StatusClass | src/pages/Sales.jsx:115-122 | green, yellow and red for Completed, Pending and Cancelled, and gray exactly for every other status |
| Sales.TypeClass | src/pages/Sales.jsx:124-126 | green text exactly for "Sale", blue for every other type |
| Sales.BadgesDistinct | src/pages/Sales.jsx:115-126 | Completed, Pending and Cancelled get three different badges, none of them gray, and every type other than "Sale" gets a different text colour from "Sale" |

## Left out

- The other endpoint tables (src/services/api.jsx:80-137), the base URL and the timeout. These are thin wrappers over axios; only the three auth requests the session uses are modelled, as verb and path.
- The request interceptor's error handler (src/services/api.jsx:21-23). It only passes a rejection through.
- `Api.RequestConfig` holds only the headers the client code sets. axios's default headers, such as `Accept`, are not modelled.
- axios, the network and the backend. They are the `transport` parameter of `Api.Call`.
- `localStorage.setItem`'s string conversion and `JSON.stringify`. They are the uninterpreted `Auth.Codec`; a map has no key order to serialise.
- `Expenses.FetchExpenses`: reading the list body as expense records is the parameter `decode`.
- React scheduling, batching of state updates and `console` output. Each handler is one pure transition on the state it reads. The delete handler reads the list it closed over, and the model takes that list as given.
- `window.confirm` is a boolean input. `window.location` is a recorded string.
- `Text.LowerChar`: only ASCII A-Z are lower-cased. The full Unicode mapping of `toLowerCase` is not modelled.
- `Json.Value`: numbers are integers. There is no NaN, no fractional value and no floating-point arithmetic.
- `Sales.FetchSalesData`: the average order value is the symbolic quotient `Quotient(revenue, invoices)`, not the floating-point division. Growth is the constant 12.5.
- `Sales.StartDateForRange` returns the local calendar date. The time of day, the time-zone shift that `toISOString` applies, and the string formatting are not modelled. `today` is a day number given as input, since the clock is outside the model.
- `Api.ParseDate`: the time value a `Date` denotes is left uninterpreted, so `new Date(x)` is the free value `Date(x)`.
- `Expenses.MergeStats` requires a successful body to be non-null. In the source that merge runs inside React's state updater, outside the try block, so a null body is an uncaught error there rather than a state.
- `Expenses.StatsThroughClient` carries the same non-null precondition, for the same reason.
- `Json.Get` models reads of data keys only. Built-in members such as an array's `length` or an inherited `constructor` are never read by the modelled code.
- `Sales.FetchSalesData` is not connected to the date range it requests. The overview endpoint's response is an input.
- Rendering, charts, formatting with `Intl.NumberFormat`, and the mock top-products list are display only.
