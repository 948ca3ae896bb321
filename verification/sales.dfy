/** The sales page of src/pages/Sales.jsx: the start of the selected date
    range, the KPI cards derived from the dashboard overview, the recent
    invoice list, and the status and type badges. */
module Sales {
  import opened Wrappers
  import opened Json
  import opened Calendar
  import Api
  import Badges

  // ---------------------------------------------------------------------
  // Date ranges (lines 85-104)
  // ---------------------------------------------------------------------

  /** The Date constructor reads a year from 0 to 99 as 1900-1999 */
  function FullYear(y: int): (r: int)
    ensures 0 <= y <= 99 ==> r == 1900 + y
    ensures !(0 <= y <= 99) ==> r == y
  {
    if 0 <= y <= 99 then 1900 + y else y
  }

  /** `new Date(year, month, date)` as a day number */
  function Construct(year: int, month: int, date: int): int {
    MakeDay(FullYear(year), month, date)
  }

  /** `d.setDate(date)` on the date with day number `t`: same year and
      month, the given day of month */
  function SetDate(t: int, date: int): int {
    var c := ToCivil(t);
    MakeDay(c.year, c.month, date)
  }

  /** Case "week" (lines 90-93): today moved back to the preceding Sunday
      with `setDate(getDate() - getDay())` */
  function WeekStart(today: int): (r: Civil)
    ensures r.Valid()
    ensures DayNumber(r) == today - WeekDay(today)
    ensures WeekDay(DayNumber(r)) == 0
    ensures 0 <= today - DayNumber(r) < 7
  {
    var w := WeekDay(today);
    DaysBack(today, w);
    BackToSunday(today);
    ToCivil(SetDate(today, ToCivil(today).day - w))
  }

  /** Case "month" (lines 94-95): day 1 of the current month */
  function FirstOfMonth(today: int): (r: Civil)
    ensures var c := ToCivil(today); r == Civil(FullYear(c.year), c.month, 1)
    ensures r.Valid()
  {
    var c := ToCivil(today);
    FirstDay(FullYear(c.year), c.month);
    ToCivil(Construct(c.year, c.month, 1))
  }

  /** `Math.floor(month / 3) * 3`: the first month of the month's quarter */
  function QuarterMonth(month: int): (r: int)
    requires 0 <= month < 12
    ensures r == (month / 3) * 3
    ensures r in {0, 3, 6, 9} && r <= month < r + 3
  {
    if month < 3 then 0 else if month < 6 then 3 else if month < 9 then 6 else 9
  }

  /** Case "quarter" (lines 96-98): day 1 of month `floor(month / 3) * 3` */
  function FirstOfQuarter(today: int): (r: Civil)
    ensures var c := ToCivil(today); r == Civil(FullYear(c.year), QuarterMonth(c.month), 1)
    ensures r.Valid()
  {
    var c := ToCivil(today);
    FirstDay(FullYear(c.year), QuarterMonth(c.month));
    ToCivil(Construct(c.year, QuarterMonth(c.month), 1))
  }

  /** Case "year" (lines 99-100): January 1 of the current year */
  function FirstOfYear(today: int): (r: Civil)
    ensures r == Civil(FullYear(ToCivil(today).year), 0, 1)
    ensures r.Valid()
  {
    var c := ToCivil(today);
    FirstDay(FullYear(c.year), 0);
    ToCivil(Construct(c.year, 0, 1))
  }

  /** The default case (lines 101-102): `new Date(year, month - 1, date)`,
      the same day of the previous month, running on into the current month
      when the previous month is too short (March 31 gives March 3, or
      March 2 in a leap year) */
  function SameDayLastMonth(today: int): (r: Civil)
    ensures r.Valid()
    ensures var c := ToCivil(today);
      var y := FullYear(c.year);
      var (py, pm) := PreviousMonth(y, c.month);
      && (c.day <= DaysInMonth(py, pm) ==> r == Civil(py, pm, c.day))
      && (c.day > DaysInMonth(py, pm) ==> r == Civil(y, c.month, c.day - DaysInMonth(py, pm)))
  {
    var c := ToCivil(today);
    OneMonthBack(FullYear(c.year), c.month, c.day);
    ToCivil(Construct(c.year, c.month - 1, c.day))
  }

  /** `getStartDateForRange(range)` with `today` as a day number. The result
      is the local calendar date; the UTC shift of `toISOString` is not
      modelled. */
  function StartDateForRange(range: string, today: int): (r: Civil)
    ensures r.Valid()
    ensures range == "today" ==> r == ToCivil(today) && DayNumber(r) == today
    ensures range == "week" ==> r == WeekStart(today)
    ensures range == "month" ==> r == FirstOfMonth(today)
    ensures range == "quarter" ==> r == FirstOfQuarter(today)
    ensures range == "year" ==> r == FirstOfYear(today)
    ensures range !in {"today", "week", "month", "quarter", "year"} ==> r == SameDayLastMonth(today)
  {
    match range
    case "today" => ToCivil(today)
    case "week" => WeekStart(today)
    case "month" => FirstOfMonth(today)
    case "quarter" => FirstOfQuarter(today)
    case "year" => FirstOfYear(today)
    case _ => SameDayLastMonth(today)
  }

  // ---------------------------------------------------------------------
  // KPI cards (lines 33-50)
  // ---------------------------------------------------------------------

  /** The average order value: 0, or revenue divided by invoices (the
      floating-point quotient is left symbolic) */
  datatype Average = Zero | Quotient(revenue: Value, invoices: Value)

  datatype SalesData = SalesData(
    totalSales: Value,
    totalTransactions: Value,
    averageOrderValue: Average,
    growth: real)

  /** The component's state */
  datatype Page = Page(data: SalesData, invoices: Value, error: Option<string>)

  const RecentFailed: string := "Failed to load recent transactions"

  /** State on mount (lines 9-18) */
  function Initial(): (p: Page)
    ensures p.data == SalesData(Num(0), Num(0), Zero, 0.0)
    ensures p.invoices == Arr([]) && p.error == None
  {
    Page(SalesData(Num(0), Num(0), Zero, 0.0), Arr([]), None)
  }

  /** `fetchSalesData`: revenue and invoice count with 0 fallbacks, an
      average only when both are non-zero, and the fixed growth figure. A
      failed call, or a null body (whose property read throws inside the
      try block), keeps the previous figures. */
  function FetchSalesData(prev: SalesData, received: Api.Reply): (r: SalesData)
    ensures !(received.Ok? && !received.response.data.Nullish()) ==> r == prev
    ensures received.Ok? && !received.response.data.Nullish() ==>
      var revenue := Get(received.response.data, "revenue");
      var count := Get(received.response.data, "invoices");
      && r.totalSales == (if Truthy(revenue) then revenue else Num(0))
      && r.totalTransactions == (if Truthy(count) then count else Num(0))
      && (r.averageOrderValue != Zero <==> Truthy(revenue) && Truthy(count))
      && (r.averageOrderValue != Zero ==> r.averageOrderValue == Quotient(r.totalSales, r.totalTransactions))
      && r.growth == 12.5
  {
    match received
    case Ok(resp) =>
      if resp.data.Nullish() then prev
      else
        var revenue := Get(resp.data, "revenue");
        var count := Get(resp.data, "invoices");
        SalesData(
          Or(revenue, Num(0)),
          Or(count, Num(0)),
          if Truthy(revenue) && Truthy(count) then Quotient(revenue, count) else Zero,
          12.5)
    case Err(_) => prev
  }

  /** `fetchRecentInvoices` (lines 52-64): the list is `data.invoices` when
      truthy, else the body; a failure sets the error and keeps the list */
  function FetchRecentInvoices(p: Page, received: Api.Reply): (r: Page)
    ensures r.data == p.data
    ensures received.Ok? && !received.response.data.Nullish() ==>
      && r.error == p.error
      && r.invoices == Unwrap(received.response.data, "invoices")
      && (received.response.data.Arr? ==> r.invoices == received.response.data)
    ensures !(received.Ok? && !received.response.data.Nullish()) ==>
      r.invoices == p.invoices && r.error == Some(RecentFailed)
  {
    match received
    case Ok(resp) =>
      if resp.data.Nullish() then p.(error := Some(RecentFailed))
      else p.(invoices := Unwrap(resp.data, "invoices"))
    case Err(_) => p.(error := Some(RecentFailed))
  }

  /** The KPI cards read only `revenue` and `invoices`, keys the response
      interceptor never rewrites: the figures from a call through the client
      are the figures from the backend's raw reply */
  lemma SalesDataThroughClient(prev: SalesData, env: Api.Env, config: Api.RequestConfig,
                               transport: Api.RequestConfig -> Api.Reply)
    ensures FetchSalesData(prev, Api.Call(env, config, transport).reply)
         == FetchSalesData(prev, transport(Api.AttachToken(config, env.store)))
  {
    var raw := transport(Api.AttachToken(config, env.store));
    if raw.Ok? {
      Api.NormalizeKeepsPlainField(raw.response.data, "revenue");
      Api.NormalizeKeepsPlainField(raw.response.data, "invoices");
    }
  }

  /** The recent-invoice list through the client: an array body arrives with
      every record's `_id` moved to `id`; a list wrapped as `{invoices: [...]}`
      is passed on exactly as the backend sent it, since the rewrite is
      shallow; a failed call keeps the old list and sets the error */
  lemma RecentInvoicesThroughClient(p: Page, env: Api.Env, config: Api.RequestConfig,
                                    transport: Api.RequestConfig -> Api.Reply)
    ensures var raw := transport(Api.AttachToken(config, env.store));
      var r := FetchRecentInvoices(p, Api.Call(env, config, transport).reply);
      && (raw.Ok? && raw.response.data.Arr? ==>
            && r.invoices.Arr?
            && |r.invoices.items| == |raw.response.data.items|
            && forall i :: 0 <= i < |r.invoices.items| ==> Api.NoNativeId(r.invoices.items[i]))
      && (raw.Ok? && Truthy(Get(raw.response.data, "invoices")) ==>
            r.invoices == raw.response.data.fields["invoices"])
      && (raw.Err? ==> r.invoices == p.invoices && r.error == Some(RecentFailed))
  {
    var raw := transport(Api.AttachToken(config, env.store));
    if raw.Ok? {
      Api.NormalizedRecordsHaveNoNativeId(raw.response.data);
      Api.NormalizeKeepsPlainField(raw.response.data, "invoices");
    }
  }

  // ---------------------------------------------------------------------
  // Badges (lines 115-126)
  // ---------------------------------------------------------------------

  /** `statusClass`: a badge per transaction status, gray otherwise */
  function StatusClass(status: string): (r: string)
    ensures status == "Completed" ==> r == Badges.Green
    ensures status == "Pending" ==> r == Badges.Yellow
    ensures status == "Cancelled" ==> r == Badges.Red
    ensures r == Badges.Gray <==> status != "Completed" && status != "Pending" && status != "Cancelled"
  {
    match status
    case "Completed" => Badges.Green
    case "Pending" => Badges.Yellow
    case "Cancelled" => Badges.Red
    case _ => Badges.Gray
  }

  const SaleText: string := "text-green-600"
  const OtherText: string := "text-blue-600"

  /** `typeClass`: green text exactly for a sale, blue for anything else */
  function TypeClass(kind: string): (r: string)
    ensures r == SaleText <==> kind == "Sale"
    ensures r == OtherText <==> kind != "Sale"
  {
    if kind == "Sale" then SaleText else OtherText
  }

  /** The statuses the page labels */
  const Statuses: set<string> := {"Completed", "Pending", "Cancelled"}

  /** The labelled statuses get pairwise different badges, none of them the
      gray fallback, and a sale is told apart from every other type */
  lemma BadgesDistinct()
    ensures forall a, b :: a in Statuses && b in Statuses && StatusClass(a) == StatusClass(b) ==> a == b
    ensures forall a :: a in Statuses ==> StatusClass(a) != Badges.Gray
    ensures forall k :: k != "Sale" ==> TypeClass(k) != TypeClass("Sale")
  {
  }
}
