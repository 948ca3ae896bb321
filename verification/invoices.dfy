/** The invoice list of src/pages/Invoices.jsx: the payment badge and the
    client-side filter (payment tab plus search box). */
module Invoices {
  import opened Text
  import opened Seqs
  import Badges

  datatype Invoice = Invoice(
    id: string,
    customer: string,
    date: string,
    dueDate: string,
    amount: int,
    status: string)

  /** `statusClass` (lines 91-98): a badge per payment status, gray for every
      other string */
  function StatusClass(status: string): (r: string)
    ensures status == "Paid" ==> r == Badges.Green
    ensures status == "Pending" ==> r == Badges.Yellow
    ensures status == "Overdue" ==> r == Badges.Red
    ensures r == Badges.Gray <==> status != "Paid" && status != "Pending" && status != "Overdue"
  {
    match status
    case "Paid" => Badges.Green
    case "Pending" => Badges.Yellow
    case "Overdue" => Badges.Red
    case _ => Badges.Gray
  }

  /** Lines 102-104 */
  predicate PassesTab(inv: Invoice, tab: string) {
    && (tab == "paid" ==> inv.status == "Paid")
    && (tab == "pending" ==> inv.status == "Pending")
    && (tab == "overdue" ==> inv.status == "Overdue")
  }

  /** Lines 107-108: customer name or invoice number contains the query,
      ignoring case */
  predicate MatchesQuery(inv: Invoice, query: string) {
    || query == ""
    || Contains(Lower(inv.customer), Lower(query))
    || Contains(Lower(inv.id), Lower(query))
  }

  predicate Shown(inv: Invoice, tab: string, query: string) {
    PassesTab(inv, tab) && MatchesQuery(inv, query)
  }

  /** `filteredInvoices` (lines 100-111): the invoices shown, in their
      original order, each as often as in the input */
  function FilterInvoices(invs: seq<Invoice>, tab: string, query: string): (r: seq<Invoice>)
    ensures IsSubsequence(r, invs)
    ensures forall inv :: inv in r <==> inv in invs && Shown(inv, tab, query)
    ensures forall inv :: Shown(inv, tab, query) ==> multiset(r)[inv] == multiset(invs)[inv]
    ensures tab != "paid" && tab != "pending" && tab != "overdue" && query == "" ==> r == invs
  {
    Select(invs, inv => Shown(inv, tab, query))
  }

  /** With an empty query each payment tab keeps exactly its status */
  lemma PaymentTabsSelectStatus(invs: seq<Invoice>)
    ensures forall i :: i in FilterInvoices(invs, "paid", "") <==> i in invs && i.status == "Paid"
    ensures forall i :: i in FilterInvoices(invs, "pending", "") <==> i in invs && i.status == "Pending"
    ensures forall i :: i in FilterInvoices(invs, "overdue", "") <==> i in invs && i.status == "Overdue"
  {
  }

  /** A tab id other than the three payment tabs restricts nothing: the
      list is the one the "all" tab shows */
  lemma OtherTabsShowAll(invs: seq<Invoice>, tab: string, query: string)
    requires tab != "paid" && tab != "pending" && tab != "overdue"
    ensures FilterInvoices(invs, tab, query) == FilterInvoices(invs, "all", query)
  {
    var keep := (inv: Invoice) => Shown(inv, "all", query);
    FilterUnique(FilterInvoices(invs, tab, query), invs, keep);
    FilterUnique(FilterInvoices(invs, "all", query), invs, keep);
  }

  /** The invoice search is case-insensitive: "inv-001" finds "INV-001" */
  lemma SearchIgnoresQueryCase(invs: seq<Invoice>, tab: string, query: string)
    ensures forall i :: i in FilterInvoices(invs, tab, query) <==> i in FilterInvoices(invs, tab, Lower(query))
  {
    LowerIdempotent(query);
    LowerEmptyIff(query);
  }

  /** The statuses the page labels */
  const Statuses: set<string> := {"Paid", "Pending", "Overdue"}

  /** The labelled statuses get pairwise different badges, none of them the
      gray fallback */
  lemma BadgesDistinct()
    ensures forall a, b :: a in Statuses && b in Statuses && StatusClass(a) == StatusClass(b) ==> a == b
    ensures forall a :: a in Statuses ==> StatusClass(a) != Badges.Gray
  {
  }
}
