/** The dashboard's statistics over the loaded invoices and its display choices. */
module Dashboard {
  import opened Js
  import opened Types

  const Pending := "Pending"
  const Paid := "Paid"

  /** `a < b` on two dates; an unparsable date compares false. */
  predicate Before(a: Moment, b: Moment) {
    a.At? && b.At? && a.time < b.time
  }

  /** Same local calendar month and year; an unparsable date matches nothing. */
  predicate SameMonth(a: Moment, b: Moment) {
    a.At? && b.At? && a.month == b.month && a.year == b.year
  }

  /** An invoice the overdue card counts: still `"Pending"` and due before now. */
  predicate IsOverdue(inv: Invoice, now: Moment) {
    Before(inv.dueDate, now) && inv.status == Pending
  }

  /** An invoice the revenue card adds: `"Paid"` and created in the current month. */
  predicate IsPaidThisMonth(inv: Invoice, now: Moment) {
    inv.status == Paid && SameMonth(inv.createdAt, now)
  }

  /** `s.filter(p)`: the entries that satisfy `p`, in order. */
  function Filter(s: seq<Invoice>, p: Invoice -> bool): (r: seq<Invoice>)
    ensures |r| <= |s|
    ensures forall x :: x in r <==> x in s && p(x)
    decreases |s|
  {
    if s == [] then [] else (if p(s[0]) then [s[0]] else []) + Filter(s[1..], p)
  }

  /** `s.reduce((sum, inv) => sum + inv.amount, 0)`, a left fold. */
  function SumAmounts(s: seq<Invoice>): (r: int)
    ensures s == [] ==> r == 0
    ensures |s| == 1 ==> r == s[0].amount
    decreases |s|
  {
    if s == [] then 0 else SumAmounts(s[..|s| - 1]) + s[|s| - 1].amount
  }

  /** The "Total Invoices" card: every entry of the list, duplicates included. */
  function TotalInvoices(s: seq<Invoice>): (n: nat)
    ensures n == |multiset(s)|
    ensures n == 0 <==> s == []
  {
    |s|
  }

  /** The "Overdue" card: the pending invoices past due. */
  function OverdueInvoices(s: seq<Invoice>, now: Moment): (n: nat)
    ensures n <= TotalInvoices(s)
    ensures n == 0 <==> forall x :: x in s ==> !IsOverdue(x, now)
  {
    var r := Filter(s, inv => IsOverdue(inv, now));
    assert r != [] ==> r[0] in r;
    |r|
  }

  /** The "Monthly Revenue" card: the sum of the amounts paid this month. */
  function MonthlyRevenue(s: seq<Invoice>, now: Moment): (r: int)
    ensures (forall x :: x in s ==> !IsPaidThisMonth(x, now)) ==> r == 0
  {
    var paid := Filter(s, inv => IsPaidThisMonth(inv, now));
    assert paid != [] ==> paid[0] in paid;
    SumAmounts(paid)
  }

  /** Filtering keeps each satisfying invoice as often as it occurs and drops the others. */
  lemma {:induction false} FilterMultiset(s: seq<Invoice>, p: Invoice -> bool, x: Invoice)
    ensures multiset(Filter(s, p))[x] == if p(x) then multiset(s)[x] else 0
    decreases |s|
  {
    if s != [] {
      FilterMultiset(s[1..], p, x);
      assert s == [s[0]] + s[1..];
      assert multiset(s) == multiset([s[0]]) + multiset(s[1..]);
    }
  }

  /** Filtering distributes over concatenation. */
  lemma {:induction false} FilterConcat(a: seq<Invoice>, b: seq<Invoice>, p: Invoice -> bool)
    ensures Filter(a + b, p) == Filter(a, p) + Filter(b, p)
    decreases |a|
  {
    if a == [] {
      assert a + b == b;
    } else {
      assert (a + b)[1..] == a[1..] + b;
      FilterConcat(a[1..], b, p);
    }
  }

  /** The sum over a concatenation is the sum of the sums. */
  lemma {:induction false} SumConcat(a: seq<Invoice>, b: seq<Invoice>)
    ensures SumAmounts(a + b) == SumAmounts(a) + SumAmounts(b)
    decreases |b|
  {
    if b == [] {
      assert a + b == a;
    } else {
      var b' := b[..|b| - 1];
      assert (a + b)[..|a + b| - 1] == a + b';
      SumConcat(a, b');
    }
  }

  /** Taking one entry out of a list takes its amount out of the sum and its
      occurrence out of the multiset. */
  lemma {:induction false} RemoveAt(b: seq<Invoice>, i: nat)
    requires i < |b|
    ensures SumAmounts(b) == SumAmounts(b[..i] + b[i + 1..]) + b[i].amount
    ensures multiset(b[..i] + b[i + 1..]) == multiset(b) - multiset{b[i]}
  {
    var x, left, right := b[i], b[..i], b[i + 1..];
    assert b == (left + [x]) + right;
    SumConcat(left + [x], right);
    SumConcat(left, [x]);
    SumConcat(left, right);
    assert multiset(b) == multiset(left) + multiset{x} + multiset(right);
  }

  /** Two lists holding the same invoices, in any order, have the same sum. */
  lemma {:induction false} SumPermutation(a: seq<Invoice>, b: seq<Invoice>)
    requires multiset(a) == multiset(b)
    ensures SumAmounts(a) == SumAmounts(b)
    decreases |a|
  {
    if a == [] {
      assert |b| == |multiset(b)| == 0;
    } else {
      var x := a[|a| - 1];
      var a' := a[..|a| - 1];
      assert a == a' + [x];
      assert multiset(a') == multiset(a) - multiset{x};
      assert x in multiset(b);
      var i :| 0 <= i < |b| && b[i] == x;
      RemoveAt(b, i);
      SumPermutation(a', b[..i] + b[i + 1..]);
    }
  }

  /** Filtering two lists with the same invoices gives lists with the same invoices. */
  lemma FilterPermutation(a: seq<Invoice>, b: seq<Invoice>, p: Invoice -> bool)
    requires multiset(a) == multiset(b)
    ensures multiset(Filter(a, p)) == multiset(Filter(b, p))
  {
    forall x | true
      ensures multiset(Filter(a, p))[x] == multiset(Filter(b, p))[x]
    {
      FilterMultiset(a, p, x);
      FilterMultiset(b, p, x);
    }
  }

  /** The overdue card counts each invoice that is pending and past due, with its
      multiplicity, and nothing else: an invoice marked `"Overdue"` is not counted. */
  lemma OverdueCountsExactly(s: seq<Invoice>, now: Moment, x: Invoice)
    ensures multiset(Filter(s, inv => IsOverdue(inv, now)))[x] ==
              if Before(x.dueDate, now) && x.status == Pending then multiset(s)[x] else 0
  {
    FilterMultiset(s, inv => IsOverdue(inv, now), x);
  }

  /** Appending an invoice that is not paid this month leaves revenue as it was; appending
      one that is adds its amount. */
  lemma RevenueAppend(s: seq<Invoice>, x: Invoice, now: Moment)
    ensures MonthlyRevenue(s + [x], now) ==
              MonthlyRevenue(s, now) + (if IsPaidThisMonth(x, now) then x.amount else 0)
  {
    var p := inv => IsPaidThisMonth(inv, now);
    FilterConcat(s, [x], p);
    assert Filter([x], p) == if p(x) then [x] else [] by {
      assert [x][1..] == [];
    }
    SumConcat(Filter(s, p), Filter([x], p));
  }

  /** Reordering the invoices changes neither the counts nor the revenue. */
  lemma StatsIgnoreOrder(a: seq<Invoice>, b: seq<Invoice>, now: Moment)
    requires multiset(a) == multiset(b)
    ensures TotalInvoices(a) == TotalInvoices(b)
    ensures OverdueInvoices(a, now) == OverdueInvoices(b, now)
    ensures MonthlyRevenue(a, now) == MonthlyRevenue(b, now)
  {
    assert |a| == |multiset(a)| == |multiset(b)| == |b|;
    var over := inv => IsOverdue(inv, now);
    FilterPermutation(a, b, over);
    assert |Filter(a, over)| == |multiset(Filter(a, over))| == |multiset(Filter(b, over))| == |Filter(b, over)|;
    var paid := inv => IsPaidThisMonth(inv, now);
    FilterPermutation(a, b, paid);
    SumPermutation(Filter(a, paid), Filter(b, paid));
  }

  /** The name in the greeting: `user?.firstName || 'User'`. */
  function GreetingName(user: Option<User>): (r: string)
    ensures r != ""
    ensures r == "User" <==> user == None || user.value.firstName in {"", "User"}
    ensures r != "User" ==> user.Some? && r == user.value.firstName
  {
    if user.Some? then Or(user.value.firstName, "User") else "User"
  }

  /** What the statistics area shows. */
  datatype StatsView = LoadingStats | StatsUnavailable | Stats(total: nat, overdue: nat, revenue: int)

  /** Loading takes precedence over an error, and an error over the statistics. */
  function StatsPanel(loading: bool, error: Option<string>, invoices: seq<Invoice>, now: Moment): (v: StatsView)
    ensures v.LoadingStats? <==> loading
    ensures v.StatsUnavailable? <==> !loading && Truthy(error)
    ensures v.Stats? ==> && v.total == |invoices| && v.overdue <= v.total
                         && v.overdue == OverdueInvoices(invoices, now)
                         && v.revenue == MonthlyRevenue(invoices, now)
  {
    if loading then LoadingStats
    else if Truthy(error) then StatsUnavailable
    else Stats(TotalInvoices(invoices), OverdueInvoices(invoices, now), MonthlyRevenue(invoices, now))
  }

  /** The scenario of one pending invoice due in the past: one overdue invoice. */
  lemma OnePastDuePendingIsOverdue(inv: Invoice, now: Moment)
    requires inv.status == Pending && Before(inv.dueDate, now)
    ensures OverdueInvoices([inv], now) == 1
  {
    assert [inv][1..] == [];
  }
}
