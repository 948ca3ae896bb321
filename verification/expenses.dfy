/** The expense page of src/pages/Expenses.jsx: loading the list and the
    statistics, deleting an expense, and the search filter. */
module Expenses {
  import opened Wrappers
  import opened Json
  import opened Text
  import opened Seqs
  import Api

  /** An expense as the table reads it from the (normalised) record */
  datatype Expense = Expense(id: string, description: string, category: string, amount: int)

  /** The four statistic cards */
  datatype Stats = Stats(totalExpenses: Value, thisMonth: Value, lastMonth: Value, budget: Value)

  /** The component's state */
  datatype Page = Page(expenses: seq<Expense>, loading: bool, error: Option<string>, stats: Stats)

  const LoadFailed: string := "Failed to load expenses"
  const DeleteFailed: string := "Failed to delete expense"

  /** State on mount (lines 9-17) */
  function Initial(): (p: Page)
    ensures p.expenses == [] && p.loading && p.error == None
    ensures p.stats == Stats(Num(0), Num(0), Num(0), Num(50000))
  {
    Page([], true, None, Stats(Num(0), Num(0), Num(0), Num(50000)))
  }

  /** `fetchExpenses` (lines 35-45). The list is `data.expenses` when that is
      truthy, else the body itself; `decode` stands for reading that value as
      expense records. A failed call, or a body whose properties cannot be
      read, sets the error. Loading ends either way. */
  function FetchExpenses(p: Page, received: Api.Reply, decode: Value -> seq<Expense>): (r: Page)
    ensures !r.loading
    ensures r.stats == p.stats
    ensures received.Ok? && !received.response.data.Nullish() ==>
      var data := received.response.data;
      && r.error == p.error
      && (Truthy(Get(data, "expenses")) ==> r.expenses == decode(data.fields["expenses"]))
      && (!Truthy(Get(data, "expenses")) ==> r.expenses == decode(data))
    ensures !(received.Ok? && !received.response.data.Nullish()) ==>
      r.expenses == p.expenses && r.error == Some(LoadFailed)
  {
    match received
    case Ok(resp) =>
      if resp.data.Nullish() then p.(error := Some(LoadFailed), loading := false)
      else p.(expenses := decode(Unwrap(resp.data, "expenses")), loading := false)
    case Err(_) => p.(error := Some(LoadFailed), loading := false)
  }

  /** `fetchExpenseStats` (lines 47-58): total and this month both take the
      response's `totalExpenses`, or 0 when it is falsy; last month and the
      budget keep their values; a failed call changes nothing. The body must
      not be null: the merge runs inside React's state updater, outside the
      try block. */
  function MergeStats(stats: Stats, received: Api.Reply): (r: Stats)
    requires received.Ok? ==> !received.response.data.Nullish()
    ensures r.lastMonth == stats.lastMonth && r.budget == stats.budget
    ensures received.Err? ==> r == stats
    ensures received.Ok? ==>
      var total := Get(received.response.data, "totalExpenses");
      && r.totalExpenses == r.thisMonth
      && (Truthy(total) ==> r.totalExpenses == total)
      && (!Truthy(total) ==> r.totalExpenses == Num(0))
  {
    match received
    case Ok(resp) =>
      var total := Or(Get(resp.data, "totalExpenses"), Num(0));
      stats.(totalExpenses := total, thisMonth := total)
    case Err(_) => stats
  }

  /** The expense list through the client: an array body reaches `decode`
      with every record's `_id` moved to `id`; a list wrapped as
      `{expenses: [...]}` reaches it exactly as the backend sent it, since
      the rewrite is shallow; a failed call keeps the list and sets the
      error */
  lemma ExpensesThroughClient(p: Page, env: Api.Env, config: Api.RequestConfig,
                              transport: Api.RequestConfig -> Api.Reply, decode: Value -> seq<Expense>)
    ensures var raw := transport(Api.AttachToken(config, env.store));
      var r := FetchExpenses(p, Api.Call(env, config, transport).reply, decode);
      && (raw.Ok? && raw.response.data.Arr? ==>
            var list := Api.NormalizeBody(raw.response.data);
            && r.expenses == decode(list)
            && |list.items| == |raw.response.data.items|
            && forall i :: 0 <= i < |list.items| ==> Api.NoNativeId(list.items[i]))
      && (raw.Ok? && Truthy(Get(raw.response.data, "expenses")) ==>
            r.expenses == decode(raw.response.data.fields["expenses"]))
      && (raw.Err? ==> r.expenses == p.expenses && r.error == Some(LoadFailed))
  {
    var raw := transport(Api.AttachToken(config, env.store));
    if raw.Ok? {
      Api.NormalizedRecordsHaveNoNativeId(raw.response.data);
      Api.NormalizeKeepsPlainField(raw.response.data, "expenses");
    }
  }

  /** The statistics read only `totalExpenses`, a key the response
      interceptor never rewrites: merging the reply of a call through the
      client gives the same cards as merging the backend's raw reply */
  lemma StatsThroughClient(stats: Stats, env: Api.Env, config: Api.RequestConfig,
                           transport: Api.RequestConfig -> Api.Reply)
    requires var raw := transport(Api.AttachToken(config, env.store));
      raw.Ok? ==> !raw.response.data.Nullish()
    ensures MergeStats(stats, Api.Call(env, config, transport).reply)
         == MergeStats(stats, transport(Api.AttachToken(config, env.store)))
  {
    var raw := transport(Api.AttachToken(config, env.store));
    if raw.Ok? {
      Api.NormalizeKeepsPlainField(raw.response.data, "totalExpenses");
    }
  }

  /** The list after a successful delete of `id`: every other expense, in
      order */
  function WithoutId(es: seq<Expense>, id: string): (r: seq<Expense>)
    ensures IsSubsequence(r, es)
    ensures forall e :: e in r <==> e in es && e.id != id
    ensures forall e: Expense :: e.id != id ==> multiset(r)[e] == multiset(es)[e]
    ensures (forall i :: 0 <= i < |es| ==> es[i].id != id) ==> r == es
  {
    Select(es, (e: Expense) => e.id != id)
  }

  /** `handleDeleteExpense` (lines 60-70): nothing happens unless confirmed;
      a successful call removes exactly the expenses with that id; a failed
      call keeps the list and sets the error. */
  function DeleteExpense(p: Page, id: string, confirmed: bool, received: Api.Reply): (r: Page)
    ensures r.loading == p.loading && r.stats == p.stats
    ensures !confirmed ==> r == p
    ensures confirmed && received.Ok? ==>
      r.expenses == WithoutId(p.expenses, id) && r.error == p.error
    ensures confirmed && received.Err? ==>
      r.expenses == p.expenses && r.error == Some(DeleteFailed)
    ensures forall e :: e in r.expenses ==> e in p.expenses
  {
    if !confirmed then p
    else match received
      case Ok(_) => p.(expenses := WithoutId(p.expenses, id))
      case Err(_) => p.(error := Some(DeleteFailed))
  }

  /** Lines 74-75: description or category contains the query, ignoring case */
  predicate MatchesQuery(e: Expense, query: string) {
    || query == ""
    || Contains(Lower(e.description), Lower(query))
    || Contains(Lower(e.category), Lower(query))
  }

  /** `filteredExpenses` (lines 72-78): only the search applies; the selected
      tab is accepted and ignored */
  function FilterExpenses(es: seq<Expense>, tab: string, query: string): (r: seq<Expense>)
    ensures IsSubsequence(r, es)
    ensures forall e :: e in r <==> e in es && MatchesQuery(e, query)
    ensures forall e :: MatchesQuery(e, query) ==> multiset(r)[e] == multiset(es)[e]
    ensures query == "" ==> r == es
  {
    Select(es, e => MatchesQuery(e, query))
  }

  /** The tab has no effect on which expenses are listed */
  lemma TabIsIgnored(es: seq<Expense>, tab1: string, tab2: string, query: string)
    ensures FilterExpenses(es, tab1, query) == FilterExpenses(es, tab2, query)
  {
  }

  /** After a confirmed, successful delete no expense with that id is left,
      and deleting it again changes nothing */
  lemma DeleteRemovesId(p: Page, id: string, received: Api.Reply)
    requires received.Ok?
    ensures var r := DeleteExpense(p, id, true, received);
      && (forall e :: e in r.expenses ==> e.id != id)
      && DeleteExpense(r, id, true, received) == r
  {
    var r := DeleteExpense(p, id, true, received);
    assert forall i :: 0 <= i < |r.expenses| ==> r.expenses[i] in r.expenses;
  }
}
