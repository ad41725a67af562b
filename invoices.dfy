/** The invoices page: the query it sends, the summary cards, the status badge and the list. */
module InvoicesPage {
  import opened StatusBadges

  datatype Bill = Bill(id: string, billNo: string, status: string, amount: string)

  const StatusColors: map<string, string> := map[
    "pending" := "bg-yellow-100 text-yellow-800",
    "paid" := "bg-green-100 text-green-800",
    "overdue" := "bg-red-100 text-red-800",
    "cancelled" := "bg-gray-100 text-gray-800"
  ]

  const Gray: string := "bg-gray-100 text-gray-800"

  /** `getStatusBadge`: pending, paid and overdue have colours; cancelled and the rest share gray. */
  function StatusBadge(status: string): (cls: string)
    ensures status == "pending" ==> cls == "bg-yellow-100 text-yellow-800"
    ensures status == "paid" ==> cls == "bg-green-100 text-green-800"
    ensures status == "overdue" ==> cls == "bg-red-100 text-red-800"
    ensures cls == Gray <==> status !in {"pending", "paid", "overdue"}
  {
    Lookup(StatusColors, status, Gray)
  }

  function Statuses(bills: seq<Bill>): (s: seq<string>)
    ensures |s| == |bills| && forall i :: 0 <= i < |bills| ==> s[i] == bills[i].status
  {
    seq(|bills|, i requires 0 <= i < |bills| => bills[i].status)
  }

  /** `bills.filter(bill => bill.status === status).length`. */
  function CountWithStatus(bills: seq<Bill>, status: string): (n: nat)
    ensures n <= |bills|
  {
    if bills == [] then 0
    else (if bills[0].status == status then 1 else 0) + CountWithStatus(bills[1..], status)
  }

  /** The count is the number of bills with exactly that status. */
  lemma {:induction false} CountIsMultiplicity(bills: seq<Bill>, status: string)
    ensures CountWithStatus(bills, status) == multiset(Statuses(bills))[status]
  {
    if bills != [] {
      CountIsMultiplicity(bills[1..], status);
      assert Statuses(bills) == [bills[0].status] + Statuses(bills[1..]);
    }
  }

  /** Counts of three different statuses add up to at most the number of bills. */
  lemma {:induction false} DistinctCountsBounded(bills: seq<Bill>, a: string, b: string, c: string)
    requires a != b && b != c && a != c
    ensures CountWithStatus(bills, a) + CountWithStatus(bills, b) + CountWithStatus(bills, c) <= |bills|
  {
    if bills != [] {
      DistinctCountsBounded(bills[1..], a, b, c);
    }
  }

  datatype Summary = Summary(total: nat, paid: nat, pending: nat, overdue: nat)

  /** The four summary cards. */
  function Summarize(bills: seq<Bill>): (s: Summary)
    ensures s.total == |bills|
    ensures s.paid == multiset(Statuses(bills))["paid"]
    ensures s.pending == multiset(Statuses(bills))["pending"]
    ensures s.overdue == multiset(Statuses(bills))["overdue"]
    ensures s.paid + s.pending + s.overdue <= s.total
  {
    CountIsMultiplicity(bills, "paid");
    CountIsMultiplicity(bills, "pending");
    CountIsMultiplicity(bills, "overdue");
    DistinctCountsBounded(bills, "paid", "pending", "overdue");
    Summary(|bills|, CountWithStatus(bills, "paid"), CountWithStatus(bills, "pending"),
      CountWithStatus(bills, "overdue"))
  }

  datatype BillsView = Skeleton | NoInvoices | BillTable(rows: seq<Bill>)

  /** The bills card: a skeleton while loading, the "no invoices" message for an empty list, else the table. */
  function ListView(isLoading: bool, bills: seq<Bill>): (v: BillsView)
    ensures v.Skeleton? <==> isLoading
    ensures v.NoInvoices? <==> !isLoading && bills == []
    ensures v.BillTable? ==> v.rows == bills && bills != []
  {
    if isLoading then Skeleton else if bills == [] then NoInvoices else BillTable(bills)
  }
}
