/** The customer list of src/pages/Customers.jsx: the status badge and the
    client-side filter (status tab plus search box). */
module Customers {
  import opened Text
  import opened Seqs
  import Badges

  datatype Customer = Customer(
    id: string,
    name: string,
    email: string,
    phone: string,
    address: string,
    owed: int,
    status: string)

  /** `statusClass` (lines 122-129): a badge for each known status, gray for
      every other string */
  function StatusClass(status: string): (r: string)
    ensures status == "Active" ==> r == Badges.Green
    ensures status == "New" ==> r == Badges.Blue
    ensures status == "Owing" ==> r == Badges.Yellow
    ensures r == Badges.Gray <==> status != "Active" && status != "New" && status != "Owing"
  {
    match status
    case "Active" => Badges.Green
    case "New" => Badges.Blue
    case "Owing" => Badges.Yellow
    case _ => Badges.Gray
  }

  /** Lines 133-135: the tab restricts by status, or by a positive balance
      for "owing"; any other tab id restricts nothing */
  predicate PassesTab(c: Customer, tab: string) {
    && (tab == "active" ==> c.status == "Active")
    && (tab == "new" ==> c.status == "New")
    && (tab == "owing" ==> c.owed > 0)
  }

  /** Lines 138-140: an empty query matches everyone; otherwise name or email
      must contain it ignoring case, or the phone must contain it as typed */
  predicate MatchesQuery(c: Customer, query: string) {
    || query == ""
    || Contains(Lower(c.name), Lower(query))
    || Contains(Lower(c.email), Lower(query))
    || Contains(c.phone, query)
  }

  predicate Shown(c: Customer, tab: string, query: string) {
    PassesTab(c, tab) && MatchesQuery(c, query)
  }

  /** `filteredCustomers` (lines 131-143): the customers shown, in their
      original order, each as often as in the input */
  function FilterCustomers(cs: seq<Customer>, tab: string, query: string): (r: seq<Customer>)
    ensures IsSubsequence(r, cs)
    ensures forall c :: c in r <==> c in cs && Shown(c, tab, query)
    ensures forall c :: Shown(c, tab, query) ==> multiset(r)[c] == multiset(cs)[c]
    ensures tab != "active" && tab != "new" && tab != "owing" && query == "" ==> r == cs
  {
    Select(cs, c => Shown(c, tab, query))
  }

  /** With an empty query the "owing" tab keeps exactly the customers with a
      positive balance, whatever their status string says */
  lemma OwingTabIgnoresStatus(cs: seq<Customer>)
    ensures forall c :: c in FilterCustomers(cs, "owing", "") <==> c in cs && c.owed > 0
  {
  }

  /** With an empty query the "active" and "new" tabs keep exactly the
      customers whose status is "Active", respectively "New" */
  lemma StatusTabsSelectStatus(cs: seq<Customer>)
    ensures forall c :: c in FilterCustomers(cs, "active", "") <==> c in cs && c.status == "Active"
    ensures forall c :: c in FilterCustomers(cs, "new", "") <==> c in cs && c.status == "New"
  {
  }

  /** A tab id other than "active", "new" and "owing" restricts nothing:
      the list is the one the "all" tab shows */
  lemma OtherTabsShowAll(cs: seq<Customer>, tab: string, query: string)
    requires tab != "active" && tab != "new" && tab != "owing"
    ensures FilterCustomers(cs, tab, query) == FilterCustomers(cs, "all", query)
  {
    var keep := (c: Customer) => Shown(c, "all", query);
    FilterUnique(FilterCustomers(cs, tab, query), cs, keep);
    FilterUnique(FilterCustomers(cs, "all", query), cs, keep);
  }

  /** The search ignores the query's case on name and email, but not on the
      phone number: "EXT" finds the phone "EXT-9" and "ext" does not. */
  lemma PhoneSearchIsCaseSensitive()
    ensures var c := Customer("C9", "x", "y", "EXT-9", "", 0, "Active");
      && Lower("EXT") == Lower("ext")
      && FilterCustomers([c], "all", "EXT") == [c]
      && FilterCustomers([c], "all", "ext") == []
  {
    var c := Customer("C9", "x", "y", "EXT-9", "", 0, "Active");
    assert Lower("EXT") == "ext" == Lower("ext");
    assert OccursAt("EXT-9", "EXT", 0);
    assert !Contains("x", "ext");
    assert !Contains("y", "ext");
    assert "EXT-9"[..3] != "ext";
    assert "EXT-9"[1..][..3] != "ext";
    assert "EXT-9"[1..][1..][..3] != "ext";
    assert !Contains("EXT-9", "ext");
    assert !Shown(c, "all", "ext");
    assert FilterCustomers([c], "all", "ext") != [c];
  }

  /** The statuses the page labels */
  const Statuses: set<string> := {"Active", "New", "Owing"}

  /** The labelled statuses get pairwise different badges, none of them the
      gray fallback */
  lemma BadgesDistinct()
    ensures forall a, b :: a in Statuses && b in Statuses && StatusClass(a) == StatusClass(b) ==> a == b
    ensures forall a :: a in Statuses ==> StatusClass(a) != Badges.Gray
  {
  }
}
