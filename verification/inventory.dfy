/** The product list of src/pages/Inventory.jsx: the stock badge and the
    client-side filter (stock tab plus search box). */
module Inventory {
  import opened Text
  import opened Seqs
  import Badges

  datatype Product = Product(
    id: string,
    name: string,
    category: string,
    stock: int,
    price: int,
    cost: int,
    status: string)

  /** `statusClass` (lines 40-47): three distinct badges for the three stock
      statuses, gray for every other string */
  function StatusClass(status: string): (r: string)
    ensures status == "In Stock" ==> r == Badges.Green
    ensures status == "Low Stock" ==> r == Badges.Yellow
    ensures status == "Out of Stock" ==> r == Badges.Red
    ensures r == Badges.Gray <==> status != "In Stock" && status != "Low Stock" && status != "Out of Stock"
  {
    match status
    case "In Stock" => Badges.Green
    case "Low Stock" => Badges.Yellow
    case "Out of Stock" => Badges.Red
    case _ => Badges.Gray
  }

  /** Lines 51-53: each stock tab requires its status string; any other tab
      id restricts nothing. The status is the record's own label, not a
      function of `stock`. */
  predicate PassesTab(p: Product, tab: string) {
    && (tab == "instock" ==> p.status == "In Stock")
    && (tab == "lowstock" ==> p.status == "Low Stock")
    && (tab == "outofstock" ==> p.status == "Out of Stock")
  }

  /** Lines 56-57: name or category contains the query, ignoring case */
  predicate MatchesQuery(p: Product, query: string) {
    || query == ""
    || Contains(Lower(p.name), Lower(query))
    || Contains(Lower(p.category), Lower(query))
  }

  predicate Shown(p: Product, tab: string, query: string) {
    PassesTab(p, tab) && MatchesQuery(p, query)
  }

  /** `filteredProducts` (lines 49-60): the products shown, in their
      original order, each as often as in the input */
  function FilterProducts(ps: seq<Product>, tab: string, query: string): (r: seq<Product>)
    ensures IsSubsequence(r, ps)
    ensures forall p :: p in r <==> p in ps && Shown(p, tab, query)
    ensures forall p :: Shown(p, tab, query) ==> multiset(r)[p] == multiset(ps)[p]
    ensures tab != "instock" && tab != "lowstock" && tab != "outofstock" && query == "" ==> r == ps
  {
    Select(ps, p => Shown(p, tab, query))
  }

  /** With an empty query each stock tab keeps exactly its status */
  lemma StockTabsSelectStatus(ps: seq<Product>)
    ensures forall p :: p in FilterProducts(ps, "instock", "") <==> p in ps && p.status == "In Stock"
    ensures forall p :: p in FilterProducts(ps, "lowstock", "") <==> p in ps && p.status == "Low Stock"
    ensures forall p :: p in FilterProducts(ps, "outofstock", "") <==> p in ps && p.status == "Out of Stock"
  {
  }

  /** A tab id other than the three stock tabs restricts nothing: the list
      is the one the "all" tab shows */
  lemma OtherTabsShowAll(ps: seq<Product>, tab: string, query: string)
    requires tab != "instock" && tab != "lowstock" && tab != "outofstock"
    ensures FilterProducts(ps, tab, query) == FilterProducts(ps, "all", query)
  {
    var keep := (p: Product) => Shown(p, "all", query);
    FilterUnique(FilterProducts(ps, tab, query), ps, keep);
    FilterUnique(FilterProducts(ps, "all", query), ps, keep);
  }

  /** The product search is case-insensitive: a query and its lower-cased
      form select the same products */
  lemma SearchIgnoresQueryCase(ps: seq<Product>, tab: string, query: string)
    ensures forall p :: p in FilterProducts(ps, tab, query) <==> p in FilterProducts(ps, tab, Lower(query))
  {
    LowerIdempotent(query);
    LowerEmptyIff(query);
  }

  /** The statuses the page labels */
  const Statuses: set<string> := {"In Stock", "Low Stock", "Out of Stock"}

  /** The labelled statuses get pairwise different badges, none of them the
      gray fallback */
  lemma BadgesDistinct()
    ensures forall a, b :: a in Statuses && b in Statuses && StatusClass(a) == StatusClass(b) ==> a == b
    ensures forall a :: a in Statuses ==> StatusClass(a) != Badges.Gray
  {
  }
}
