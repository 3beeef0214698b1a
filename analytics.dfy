/**
 * The analytics dashboard: four figures computed from the whole population
 * of subscriptions and users on a given day. Each query set of the view is
 * a function over the sequence of rows; `today` is a parameter.
 *
 * "Active" means `status == Active` throughout: the view's revenue filter
 * names a boolean `is_active` column that the subscription record no
 * longer has, and the three-valued status took its place.
 */
module Analytics {
  import opened Wrappers
  import opened Dates
  import opened Models

  // ---------------------------------------------------------------------
  // Query sets and sums
  // ---------------------------------------------------------------------

  /** The rows of `subs` that satisfy `p`, in their original order (`.filter(...)`). */
  function Filter(subs: seq<Subscription>, p: Subscription -> bool): (r: seq<Subscription>)
    ensures |r| <= |subs|
    ensures forall s :: multiset(r)[s] == if p(s) then multiset(subs)[s] else 0
  {
    if |subs| == 0 then []
    else
      assert subs == [subs[0]] + subs[1..];
      (if p(subs[0]) then [subs[0]] else []) + Filter(subs[1..], p)
  }

  /** `Sum('plan_cost')` over a query set, with an empty set summing to 0. */
  function CostSum(subs: seq<Subscription>): int {
    if |subs| == 0 then 0 else subs[0].planCost + CostSum(subs[1..])
  }

  lemma {:induction false} CostSumAppend(a: seq<Subscription>, b: seq<Subscription>)
    ensures CostSum(a + b) == CostSum(a) + CostSum(b)
  {
    if |a| == 0 {
      assert a + b == b;
    } else {
      assert (a + b)[1..] == a[1..] + b;
      CostSumAppend(a[1..], b);
    }
  }

  /** A sum does not depend on the order of the rows, only on which rows there are. */
  lemma {:induction false} CostSumPermutation(a: seq<Subscription>, b: seq<Subscription>)
    requires multiset(a) == multiset(b)
    ensures CostSum(a) == CostSum(b)
    decreases |a|
  {
    if |a| == 0 {
      assert |b| == |multiset(b)| == 0;
    } else {
      var x := a[0];
      assert x in multiset(b);
      var k :| 0 <= k < |b| && b[k] == x;
      var rest := b[..k] + b[k + 1..];
      assert b == b[..k] + [x] + b[k + 1..];
      assert a == [x] + a[1..];
      assert multiset(a) == multiset{x} + multiset(a[1..]);
      assert multiset(b) == multiset(b[..k]) + multiset{x} + multiset(b[k + 1..]);
      assert multiset(rest) == multiset(b[..k]) + multiset(b[k + 1..]);
      assert multiset(a[1..]) == multiset(a) - multiset{x};
      assert multiset(rest) == multiset(b) - multiset{x};
      CostSumPermutation(a[1..], rest);
      CostSumAppend(b[..k] + [x], b[k + 1..]);
      CostSumAppend(b[..k], [x]);
      CostSumAppend(b[..k], b[k + 1..]);
    }
  }

  /** Filtering commutes with concatenation, up to the order of rows. */
  lemma FilterConcatCost(a: seq<Subscription>, b: seq<Subscription>, p: Subscription -> bool)
    ensures CostSum(Filter(a + b, p)) == CostSum(Filter(a, p)) + CostSum(Filter(b, p))
  {
    var l, r := Filter(a + b, p), Filter(a, p) + Filter(b, p);
    forall s ensures multiset(l)[s] == multiset(r)[s] { }
    assert multiset(l) == multiset(r);
    CostSumPermutation(l, r);
    CostSumAppend(Filter(a, p), Filter(b, p));
  }

  /** A filter that no row passes selects nothing. */
  lemma {:induction false} FilterNone(subs: seq<Subscription>, p: Subscription -> bool)
    requires forall i :: 0 <= i < |subs| ==> !p(subs[i])
    ensures Filter(subs, p) == []
  {
    if |subs| > 0 {
      FilterNone(subs[1..], p);
    }
  }

  // ---------------------------------------------------------------------
  // 1. Total recurring revenue
  // ---------------------------------------------------------------------

  function ActiveSubscriptions(subs: seq<Subscription>): seq<Subscription> {
    Filter(subs, (s: Subscription) => s.status == Active)
  }

  /** `Coalesce(Sum('plan_cost', filter=active), 0)`. */
  function TotalRecurringRevenue(subs: seq<Subscription>): int {
    CostSum(ActiveSubscriptions(subs))
  }

  /** The revenue is exactly the sum over the active rows: the active rows are all counted, once each, and nothing else is. */
  lemma RecurringRevenueIsActiveSum(subs: seq<Subscription>)
    ensures forall s :: multiset(ActiveSubscriptions(subs))[s] == if s.status == Active then multiset(subs)[s] else 0
    ensures TotalRecurringRevenue(subs) == CostSum(ActiveSubscriptions(subs))
  {
  }

  /** With no active subscription the revenue is 0, not null. */
  lemma RecurringRevenueNoneActive(subs: seq<Subscription>)
    requires forall i :: 0 <= i < |subs| ==> subs[i].status != Active
    ensures TotalRecurringRevenue(subs) == 0
  {
    FilterNone(subs, (s: Subscription) => s.status == Active);
  }

  /** The revenue of two populations together is the sum of their revenues. */
  lemma RecurringRevenueConcat(a: seq<Subscription>, b: seq<Subscription>)
    ensures TotalRecurringRevenue(a + b) == TotalRecurringRevenue(a) + TotalRecurringRevenue(b)
  {
    FilterConcatCost(a, b, (s: Subscription) => s.status == Active);
  }

  /** One more subscription adds its cost when it is active and nothing otherwise. */
  lemma RecurringRevenueAdd(subs: seq<Subscription>, s: Subscription)
    ensures TotalRecurringRevenue(subs + [s])
         == TotalRecurringRevenue(subs) + (if s.status == Active then s.planCost else 0)
  {
    RecurringRevenueConcat(subs, [s]);
    var one := ActiveSubscriptions([s]);
    assert [s][1..] == [];
    FilterNone([], (x: Subscription) => x.status == Active);
    assert one == (if s.status == Active then [s] else []);
    assert CostSum(one) == (if s.status == Active then s.planCost else 0);
  }

  /** Suspended and cancelled subscriptions, wherever they are added, leave the revenue unchanged. */
  lemma RecurringRevenueIgnoresInactive(a: seq<Subscription>, b: seq<Subscription>, extra: seq<Subscription>)
    requires forall i :: 0 <= i < |extra| ==> extra[i].status != Active
    ensures TotalRecurringRevenue(a + extra + b) == TotalRecurringRevenue(a + b)
  {
    RecurringRevenueConcat(a + extra, b);
    RecurringRevenueConcat(a, extra);
    RecurringRevenueConcat(a, b);
    RecurringRevenueNoneActive(extra);
  }

  /** The revenue is a function of the set of rows, not of the order the database returns them in. */
  lemma RecurringRevenuePermutation(a: seq<Subscription>, b: seq<Subscription>)
    requires multiset(a) == multiset(b)
    ensures TotalRecurringRevenue(a) == TotalRecurringRevenue(b)
  {
    var fa, fb := ActiveSubscriptions(a), ActiveSubscriptions(b);
    forall s ensures multiset(fa)[s] == multiset(fb)[s] { }
    assert multiset(fa) == multiset(fb);
    CostSumPermutation(fa, fb);
  }

  // ---------------------------------------------------------------------
  // 2. Average subscription cost
  // ---------------------------------------------------------------------

  /** `Coalesce(Avg('plan_cost'), 0)` over every subscription, whatever its status. */
  function AverageSubscriptionCost(subs: seq<Subscription>): (r: real)
    ensures |subs| == 0 ==> r == 0.0
    ensures r * (|subs| as real) == CostSum(subs) as real
  {
    if |subs| == 0 then 0.0 else (CostSum(subs) as real) / (|subs| as real)
  }

  lemma {:induction false} CostSumBounds(subs: seq<Subscription>, lo: int, hi: int)
    requires forall i :: 0 <= i < |subs| ==> lo <= subs[i].planCost <= hi
    ensures lo * |subs| <= CostSum(subs) <= hi * |subs|
  {
    if |subs| > 0 {
      CostSumBounds(subs[1..], lo, hi);
      assert lo * |subs| == lo * |subs[1..]| + lo;
      assert hi * |subs| == hi * |subs[1..]| + hi;
    }
  }

  lemma {:induction false} ProductAsReal(a: int, n: nat)
    ensures (a * n) as real == (a as real) * (n as real)
  {
    if n > 0 {
      ProductAsReal(a, n - 1);
      assert a * n == a * (n - 1) + a;
      assert (a as real) * (n as real) == (a as real) * ((n - 1) as real) + a as real;
    }
  }

  /** The average lies between the smallest and the largest cost. */
  lemma AverageWithinBounds(subs: seq<Subscription>, lo: int, hi: int)
    requires |subs| > 0
    requires forall i :: 0 <= i < |subs| ==> lo <= subs[i].planCost <= hi
    ensures lo as real <= AverageSubscriptionCost(subs) <= hi as real
  {
    var n, total := |subs|, CostSum(subs);
    CostSumBounds(subs, lo, hi);
    var low, high := lo * n, hi * n;
    assert low as real <= total as real <= high as real;
    ProductAsReal(lo, n);
    ProductAsReal(hi, n);
    QuotientBounds(total as real, n as real, lo as real, hi as real);
    assert AverageSubscriptionCost(subs) == (total as real) / (n as real);
  }

  lemma QuotientBounds(s: real, n: real, lo: real, hi: real)
    requires n > 0.0 && lo * n <= s <= hi * n
    ensures lo <= s / n <= hi
  {
    var q := s / n;
    assert q * n == s;
    assert (q - lo) * n >= 0.0;
    assert (hi - q) * n >= 0.0;
  }

  lemma {:induction false} CostSumOfCosts(a: seq<Subscription>, b: seq<Subscription>)
    requires |a| == |b|
    requires forall i :: 0 <= i < |a| ==> a[i].planCost == b[i].planCost
    ensures CostSum(a) == CostSum(b)
  {
    if |a| > 0 {
      CostSumOfCosts(a[1..], b[1..]);
    }
  }

  /** The average reads only the costs: changing the statuses of rows leaves it as it was. */
  lemma AverageIgnoresStatus(a: seq<Subscription>, b: seq<Subscription>)
    requires |a| == |b|
    requires forall i :: 0 <= i < |a| ==> a[i].planCost == b[i].planCost
    ensures AverageSubscriptionCost(a) == AverageSubscriptionCost(b)
  {
    CostSumOfCosts(a, b);
  }

  // ---------------------------------------------------------------------
  // 3. Monthly revenue history
  // ---------------------------------------------------------------------

  /** One row of the history: a month (its first day) and the revenue of subscriptions started in it. */
  datatype MonthlyRevenue = MonthlyRevenue(month: Date, totalRevenue: int)

  /** `start_date__gte=from, start_date__lt=until`. */
  predicate InWindow(d: Date, from: Date, until: Date) {
    !Before(d, from) && Before(d, until)
  }

  function WindowSubscriptions(subs: seq<Subscription>, from: Date, until: Date): seq<Subscription> {
    Filter(subs, (s: Subscription) => InWindow(s.startDate, from, until))
  }

  /** The rows whose `TruncMonth('start_date')` is `m`. */
  function StartedInMonth(subs: seq<Subscription>, m: Date): seq<Subscription> {
    Filter(subs, (s: Subscription) => FirstOfMonth(s.startDate) == m)
  }

  predicate Ascending(h: seq<MonthlyRevenue>) {
    forall i, j :: 0 <= i < j < |h| ==> Before(h[i].month, h[j].month)
  }

  function Months(h: seq<MonthlyRevenue>): set<Date> {
    set i | 0 <= i < |h| :: h[i].month
  }

  lemma MonthsCons(x: MonthlyRevenue, h: seq<MonthlyRevenue>)
    ensures Months([x] + h) == {x.month} + Months(h)
  {
    var l := [x] + h;
    forall m ensures m in Months(l) <==> m in {x.month} + Months(h) {
      if m in Months(l) {
        var i :| 0 <= i < |l| && l[i].month == m;
        if i > 0 { assert h[i - 1].month == m; }
      }
      if m in Months(h) {
        var i :| 0 <= i < |h| && h[i].month == m;
        assert l[i + 1].month == m;
      }
      if m == x.month {
        assert l[0].month == m;
      }
    }
  }

  /** The revenue the history records for month `m` (0 when `m` has no row). */
  function RevenueIn(h: seq<MonthlyRevenue>, m: Date): int {
    if |h| == 0 then 0
    else (if h[0].month == m then h[0].totalRevenue else 0) + RevenueIn(h[1..], m)
  }

  function HistoryTotal(h: seq<MonthlyRevenue>): int {
    if |h| == 0 then 0 else h[0].totalRevenue + HistoryTotal(h[1..])
  }

  /**
   * Adds cost `c` to the row of month `m`, creating the row in its place in
   * month order when `m` has none yet.
   */
  function AddToMonth(h: seq<MonthlyRevenue>, m: Date, c: int): (r: seq<MonthlyRevenue>)
    ensures Months(r) == Months(h) + {m}
    decreases |h|
  {
    if |h| == 0 then
      var r := [MonthlyRevenue(m, c)];
      MonthsCons(r[0], h);
      assert r == [r[0]] + h;
      r
    else if h[0].month == m then
      var r := [MonthlyRevenue(m, h[0].totalRevenue + c)] + h[1..];
      assert h == [h[0]] + h[1..];
      MonthsCons(h[0], h[1..]);
      MonthsCons(r[0], h[1..]);
      r
    else if Before(m, h[0].month) then
      var r := [MonthlyRevenue(m, c)] + h;
      MonthsCons(r[0], h);
      r
    else
      var rest := AddToMonth(h[1..], m, c);
      assert h == [h[0]] + h[1..];
      MonthsCons(h[0], h[1..]);
      MonthsCons(h[0], rest);
      [h[0]] + rest
  }

  lemma {:induction false} AddToMonthAscending(h: seq<MonthlyRevenue>, m: Date, c: int)
    requires Ascending(h)
    ensures Ascending(AddToMonth(h, m, c))
  {
    if |h| > 0 && h[0].month != m && !Before(m, h[0].month) {
      var tail := h[1..];
      AddToMonthAscending(tail, m, c);
      var rest := AddToMonth(tail, m, c);
      forall j | 0 <= j < |rest| ensures Before(h[0].month, rest[j].month) {
        assert rest[j].month in Months(rest);
        if rest[j].month != m {
          var i :| 0 <= i < |tail| && tail[i].month == rest[j].month;
          assert h[i + 1].month == rest[j].month;
        }
      }
      assert AddToMonth(h, m, c) == [h[0]] + rest;
    }
  }

  lemma {:induction false} AddToMonthRevenue(h: seq<MonthlyRevenue>, m: Date, c: int, k: Date)
    ensures RevenueIn(AddToMonth(h, m, c), k) == RevenueIn(h, k) + (if k == m then c else 0)
  {
    if |h| > 0 {
      var r := AddToMonth(h, m, c);
      if h[0].month == m {
        assert r[1..] == h[1..];
      } else if Before(m, h[0].month) {
        assert r[1..] == h;
      } else {
        AddToMonthRevenue(h[1..], m, c, k);
        assert r[1..] == AddToMonth(h[1..], m, c);
      }
    }
  }

  lemma {:induction false} AddToMonthTotal(h: seq<MonthlyRevenue>, m: Date, c: int)
    ensures HistoryTotal(AddToMonth(h, m, c)) == HistoryTotal(h) + c
  {
    if |h| > 0 {
      var r := AddToMonth(h, m, c);
      if h[0].month == m {
        assert r[1..] == h[1..];
      } else if Before(m, h[0].month) {
        assert r[1..] == h;
      } else {
        AddToMonthTotal(h[1..], m, c);
        assert r[1..] == AddToMonth(h[1..], m, c);
      }
    }
  }

  /**
   * `.filter(window).annotate(month=TruncMonth('start_date')).values('month')
   * .annotate(total_revenue=Sum('plan_cost')).order_by('month')`:
   * one row per month in which some subscription of the window started,
   * months strictly ascending, each month given by its first day.
   */
  function MonthlyRevenueHistory(subs: seq<Subscription>, from: Date, until: Date): (h: seq<MonthlyRevenue>)
    ensures Ascending(h)
    ensures forall i :: 0 <= i < |h| ==> h[i].month.day == 1
    ensures forall m :: m in Months(h) <==>
      exists s :: s in subs && InWindow(s.startDate, from, until) && FirstOfMonth(s.startDate) == m
  {
    if |subs| == 0 then []
    else
      var rest := MonthlyRevenueHistory(subs[1..], from, until);
      assert forall s :: s in subs <==> s == subs[0] || s in subs[1..];
      var s := subs[0];
      if InWindow(s.startDate, from, until) then
        AddToMonthAscending(rest, FirstOfMonth(s.startDate), s.planCost);
        var h := AddToMonth(rest, FirstOfMonth(s.startDate), s.planCost);
        assert forall i :: 0 <= i < |h| ==> h[i].month in Months(h);
        h
      else
        rest
  }

  /** In an ascending history each month has one row, so a row's total is the month's revenue. */
  lemma {:induction false} RevenueInAscending(h: seq<MonthlyRevenue>, i: nat)
    requires Ascending(h) && i < |h|
    ensures RevenueIn(h, h[i].month) == h[i].totalRevenue
  {
    if i == 0 {
      RevenueInAbsent(h[1..], h[0].month);
    } else {
      assert h[0].month != h[i].month by { assert Before(h[0].month, h[i].month); }
      RevenueInAscending(h[1..], i - 1);
    }
  }

  lemma {:induction false} RevenueInAbsent(h: seq<MonthlyRevenue>, m: Date)
    requires forall j :: 0 <= j < |h| ==> Before(m, h[j].month)
    ensures RevenueIn(h, m) == 0
  {
    if |h| > 0 {
      RevenueInAbsent(h[1..], m);
    }
  }

  /** What the history records for every month is the sum of the window's costs started in that month. */
  lemma {:induction false} HistoryRevenueByMonth(subs: seq<Subscription>, from: Date, until: Date, m: Date)
    ensures RevenueIn(MonthlyRevenueHistory(subs, from, until), m)
         == CostSum(StartedInMonth(WindowSubscriptions(subs, from, until), m))
  {
    if |subs| > 0 {
      HistoryRevenueByMonth(subs[1..], from, until, m);
      var w := WindowSubscriptions(subs, from, until);
      var w' := WindowSubscriptions(subs[1..], from, until);
      var s := subs[0];
      var rest := MonthlyRevenueHistory(subs[1..], from, until);
      if InWindow(s.startDate, from, until) {
        var key := FirstOfMonth(s.startDate);
        AddToMonthRevenue(rest, key, s.planCost, m);
        assert w == [s] + w';
        assert ([s] + w')[1..] == w';
        var head := if key == m then [s] else [];
        assert StartedInMonth(w, m) == head + StartedInMonth(w', m);
        CostSumAppend(head, StartedInMonth(w', m));
        assert CostSum(head) == if key == m then s.planCost else 0;
      } else {
        assert w == w';
      }
    }
  }

  /** Each row's `total_revenue` is the sum of `plan_cost` of the window's subscriptions started in its month. */
  lemma MonthlyBucketTotals(subs: seq<Subscription>, from: Date, until: Date)
    ensures forall i :: 0 <= i < |MonthlyRevenueHistory(subs, from, until)| ==>
      MonthlyRevenueHistory(subs, from, until)[i].totalRevenue
        == CostSum(StartedInMonth(WindowSubscriptions(subs, from, until), MonthlyRevenueHistory(subs, from, until)[i].month))
  {
    var h := MonthlyRevenueHistory(subs, from, until);
    forall i | 0 <= i < |h|
      ensures h[i].totalRevenue == CostSum(StartedInMonth(WindowSubscriptions(subs, from, until), h[i].month))
    {
      RevenueInAscending(h, i);
      HistoryRevenueByMonth(subs, from, until, h[i].month);
    }
  }

  /** The rows of the history add up to the revenue of the whole window. */
  lemma {:induction false} HistoryTotalIsWindowRevenue(subs: seq<Subscription>, from: Date, until: Date)
    ensures HistoryTotal(MonthlyRevenueHistory(subs, from, until)) == CostSum(WindowSubscriptions(subs, from, until))
  {
    if |subs| > 0 {
      HistoryTotalIsWindowRevenue(subs[1..], from, until);
      var w := WindowSubscriptions(subs, from, until);
      var w' := WindowSubscriptions(subs[1..], from, until);
      var rest := MonthlyRevenueHistory(subs[1..], from, until);
      if InWindow(subs[0].startDate, from, until) {
        AddToMonthTotal(rest, FirstOfMonth(subs[0].startDate), subs[0].planCost);
        assert w == [subs[0]] + w';
        assert ([subs[0]] + w')[1..] == w';
      } else {
        assert w == w';
      }
    }
  }

  /** Every month in the history lies between the month of `from` and `until`, excluded. */
  lemma HistoryMonthsInWindow(subs: seq<Subscription>, from: Date, until: Date)
    ensures forall i :: 0 <= i < |MonthlyRevenueHistory(subs, from, until)| ==>
      && !Before(MonthlyRevenueHistory(subs, from, until)[i].month, FirstOfMonth(from))
      && Before(MonthlyRevenueHistory(subs, from, until)[i].month, until)
  {
    var h := MonthlyRevenueHistory(subs, from, until);
    forall i | 0 <= i < |h|
      ensures !Before(h[i].month, FirstOfMonth(from)) && Before(h[i].month, until)
    {
      assert h[i].month in Months(h);
      var s :| s in subs && InWindow(s.startDate, from, until) && FirstOfMonth(s.startDate) == h[i].month;
    }
  }

  /** An ascending list of first days of months, all within `count` consecutive months, has at most `count` rows. */
  lemma {:induction false} AscendingMonthsBounded(h: seq<MonthlyRevenue>, lo: int, hi: int)
    requires Ascending(h)
    requires forall i :: 0 <= i < |h| ==> h[i].month.day == 1
    requires forall i :: 0 <= i < |h| ==> lo <= MonthIndex(h[i].month) < hi
    ensures |h| <= if hi < lo then 0 else hi - lo
  {
    if |h| > 0 {
      forall i | 1 <= i < |h| ensures MonthIndex(h[0].month) < MonthIndex(h[i].month) {
        FirstDaysOrderedByMonth(h[0].month, h[i].month);
      }
      AscendingMonthsBounded(h[1..], MonthIndex(h[0].month) + 1, hi);
    }
  }

  // ---------------------------------------------------------------------
  // 4. Top users
  // ---------------------------------------------------------------------

  /** One row of the ranking: `values('id', 'username', 'email', 'total_subscription_value')`. */
  datatype TopUser = TopUser(id: nat, username: string, email: string, totalSubscriptionValue: int)

  const TopUsersLimit: nat := 5

  function SubscriptionsOf(subs: seq<Subscription>, userId: nat): seq<Subscription> {
    Filter(subs, (s: Subscription) => s.userId == userId)
  }

  predicate HasSubscriptions(subs: seq<Subscription>, userId: nat) {
    exists i :: 0 <= i < |subs| && subs[i].userId == userId
  }

  /** `Sum('user_subscriptions__plan_cost')`: the user's costs over every status. */
  function SubscriptionValue(subs: seq<Subscription>, userId: nat): int {
    CostSum(SubscriptionsOf(subs, userId))
  }

  function RowOf(u: User, subs: seq<Subscription>): TopUser {
    TopUser(u.id, u.username, u.email, SubscriptionValue(subs, u.id))
  }

  /** User ids are primary keys: no two users of a table share one. */
  predicate UniqueUserIds(users: seq<User>) {
    forall i, j :: 0 <= i < j < |users| ==> users[i].id != users[j].id
  }

  predicate UniqueRowIds(rows: seq<TopUser>) {
    forall i, j :: 0 <= i < j < |rows| ==> rows[i].id != rows[j].id
  }

  lemma TailUserIds(users: seq<User>)
    requires |users| > 0 && UniqueUserIds(users)
    ensures UniqueUserIds(users[1..])
    ensures forall u :: u in users[1..] ==> u.id != users[0].id
  {
    forall i, j | 0 <= i < j < |users| - 1 ensures users[1..][i].id != users[1..][j].id {
      assert users[1..][i] == users[i + 1] && users[1..][j] == users[j + 1];
    }
    forall u | u in users[1..] ensures u.id != users[0].id {
      var k :| 0 <= k < |users| - 1 && users[1..][k] == u;
      assert users[k + 1] == u;
    }
  }

  /** Putting at most one row with a fresh id in front of rows with distinct ids keeps them distinct. */
  lemma ConsRowIds(id: nat, head: seq<TopUser>, rest: seq<TopUser>)
    requires |head| <= 1 && forall x :: x in head ==> x.id == id
    requires UniqueRowIds(rest) && forall x :: x in rest ==> x.id != id
    ensures UniqueRowIds(head + rest)
  {
    var r := head + rest;
    forall i, j | 0 <= i < j < |r| ensures r[i].id != r[j].id {
      if |head| == 1 && i == 0 {
        assert r[i] == head[0] && head[0] in head;
        assert r[j] == rest[j - 1] && rest[j - 1] in rest;
      } else {
        assert r[i] == rest[i - |head|] && r[j] == rest[j - |head|];
      }
    }
  }

  /**
   * The annotated user table without the rows whose sum is null, that is,
   * without the users who have no subscription at all. The sum groups by
   * user, so each such user has exactly one row.
   */
  function AnnotatedUsers(users: seq<User>, subs: seq<Subscription>): (r: seq<TopUser>)
    ensures forall t :: t in r <==> exists u :: u in users && HasSubscriptions(subs, u.id) && t == RowOf(u, subs)
    ensures UniqueUserIds(users) ==> UniqueRowIds(r)
  {
    if |users| == 0 then []
    else
      assert forall u :: u in users <==> u == users[0] || u in users[1..];
      var head := if HasSubscriptions(subs, users[0].id) then [RowOf(users[0], subs)] else [];
      var rest := AnnotatedUsers(users[1..], subs);
      if UniqueUserIds(users) then
        TailUserIds(users);
        assert forall x :: x in rest ==> x.id != users[0].id;
        ConsRowIds(users[0].id, head, rest);
        head + rest
      else
        head + rest
  }

  predicate NonIncreasing(rows: seq<TopUser>) {
    forall i, j :: 0 <= i < j < |rows| ==> rows[i].totalSubscriptionValue >= rows[j].totalSubscriptionValue
  }

  /** Inserts `t` before the first row with a smaller total. */
  function InsertByValue(t: TopUser, sorted: seq<TopUser>): (r: seq<TopUser>)
    ensures multiset(r) == multiset(sorted) + multiset{t}
  {
    if |sorted| == 0 || t.totalSubscriptionValue >= sorted[0].totalSubscriptionValue then
      [t] + sorted
    else
      assert sorted == [sorted[0]] + sorted[1..];
      [sorted[0]] + InsertByValue(t, sorted[1..])
  }

  lemma {:induction false} InsertByValueKeepsOrder(t: TopUser, sorted: seq<TopUser>)
    requires NonIncreasing(sorted)
    ensures NonIncreasing(InsertByValue(t, sorted))
  {
    if |sorted| > 0 && t.totalSubscriptionValue < sorted[0].totalSubscriptionValue {
      var tail := sorted[1..];
      InsertByValueKeepsOrder(t, tail);
      var rest := InsertByValue(t, tail);
      forall j | 0 <= j < |rest|
        ensures sorted[0].totalSubscriptionValue >= rest[j].totalSubscriptionValue
      {
        assert rest[j] in multiset(rest);
        if rest[j] != t {
          assert rest[j] in multiset(tail);
          var i :| 0 <= i < |tail| && tail[i] == rest[j];
          assert sorted[i + 1] == rest[j];
        }
      }
      assert InsertByValue(t, sorted) == [sorted[0]] + rest;
    }
  }

  /** Inserting a row whose id is new into rows with distinct ids keeps the ids distinct. */
  lemma {:induction false} InsertByValueKeepsIds(t: TopUser, sorted: seq<TopUser>)
    requires UniqueRowIds(sorted)
    requires forall x :: x in sorted ==> x.id != t.id
    ensures UniqueRowIds(InsertByValue(t, sorted))
  {
    if |sorted| == 0 || t.totalSubscriptionValue >= sorted[0].totalSubscriptionValue {
      ConsRowIds(t.id, [t], sorted);
    } else {
      var tail := sorted[1..];
      assert sorted == [sorted[0]] + tail;
      ConsRowIdsTail(sorted[0], tail);
      InsertByValueKeepsIds(t, tail);
      var rest := InsertByValue(t, tail);
      forall x | x in rest ensures x.id != sorted[0].id {
        assert x in multiset(rest);
      }
      ConsRowIds(sorted[0].id, [sorted[0]], rest);
    }
  }

  /** The converse of `ConsRowIds` for one row: the tail keeps distinct ids, none equal to the head's. */
  lemma ConsRowIdsTail(x: TopUser, tail: seq<TopUser>)
    requires UniqueRowIds([x] + tail)
    ensures UniqueRowIds(tail)
    ensures forall y :: y in tail ==> y.id != x.id
  {
    var r := [x] + tail;
    forall i, j | 0 <= i < j < |tail| ensures tail[i].id != tail[j].id {
      assert tail[i] == r[i + 1] && tail[j] == r[j + 1];
    }
    forall y | y in tail ensures y.id != x.id {
      var k :| 0 <= k < |tail| && tail[k] == y;
      assert r[k + 1] == y && r[0] == x;
    }
  }

  /** `order_by('-total_subscription_value')`; rows with equal totals keep their table order. */
  function SortByValueDesc(rows: seq<TopUser>): (r: seq<TopUser>)
    ensures multiset(r) == multiset(rows)
    ensures NonIncreasing(r)
  {
    if |rows| == 0 then []
    else
      assert rows == [rows[0]] + rows[1..];
      var rest := SortByValueDesc(rows[1..]);
      InsertByValueKeepsOrder(rows[0], rest);
      InsertByValue(rows[0], rest)
  }

  /** Sorting rows with distinct ids keeps them distinct. */
  lemma {:induction false} SortKeepsIds(rows: seq<TopUser>)
    requires UniqueRowIds(rows)
    ensures UniqueRowIds(SortByValueDesc(rows))
  {
    if |rows| > 0 {
      var tail := rows[1..];
      assert UniqueRowIds(tail) by {
        forall i, j | 0 <= i < j < |tail| ensures tail[i].id != tail[j].id {
          assert tail[i] == rows[i + 1] && tail[j] == rows[j + 1];
        }
      }
      SortKeepsIds(tail);
      var rest := SortByValueDesc(tail);
      forall x | x in rest ensures x.id != rows[0].id {
        assert x in multiset(rest);
        assert x in multiset(tail);
        var k :| 0 <= k < |tail| && tail[k] == x;
        assert rows[k + 1] == x;
      }
      InsertByValueKeepsIds(rows[0], rest);
    }
  }

  /** The first five rows of the ranking (`[:5]`). */
  function TopUsers(users: seq<User>, subs: seq<Subscription>): (r: seq<TopUser>)
    ensures |r| <= TopUsersLimit
  {
    var sorted := SortByValueDesc(AnnotatedUsers(users, subs));
    if |sorted| <= TopUsersLimit then sorted else sorted[..TopUsersLimit]
  }

  lemma SortedRows(users: seq<User>, subs: seq<Subscription>)
    ensures forall t :: t in SortByValueDesc(AnnotatedUsers(users, subs)) <==> t in AnnotatedUsers(users, subs)
  {
    var rows := AnnotatedUsers(users, subs);
    var sorted := SortByValueDesc(rows);
    forall t ensures t in sorted <==> t in rows {
      assert t in sorted <==> t in multiset(sorted);
      assert t in rows <==> t in multiset(rows);
    }
  }

  /**
   * Every listed row belongs to a user of the table who has at least one
   * subscription, and carries that user's total over all statuses; the
   * totals do not increase along the list.
   */
  lemma TopUsersRows(users: seq<User>, subs: seq<Subscription>)
    ensures NonIncreasing(TopUsers(users, subs))
    ensures forall t :: t in TopUsers(users, subs) ==>
      && HasSubscriptions(subs, t.id)
      && t.totalSubscriptionValue == SubscriptionValue(subs, t.id)
      && exists u :: u in users && u.id == t.id && u.username == t.username && u.email == t.email
  {
    var sorted := SortByValueDesc(AnnotatedUsers(users, subs));
    SortedRows(users, subs);
    var r := TopUsers(users, subs);
    assert forall t :: t in r ==> t in sorted;
  }

  /** In a user table keyed by id, the ranking lists each user at most once. */
  lemma TopUsersDistinct(users: seq<User>, subs: seq<Subscription>)
    requires UniqueUserIds(users)
    ensures UniqueRowIds(TopUsers(users, subs))
  {
    var sorted := SortByValueDesc(AnnotatedUsers(users, subs));
    SortKeepsIds(AnnotatedUsers(users, subs));
    var r := TopUsers(users, subs);
    assert forall i :: 0 <= i < |r| ==> r[i] == sorted[i];
  }

  /**
   * A user with subscriptions who is not listed has a total no larger
   * than the smallest listed one, and then five users are listed.
   */
  lemma TopUsersComplete(users: seq<User>, subs: seq<Subscription>, u: User)
    requires u in users && HasSubscriptions(subs, u.id)
    requires RowOf(u, subs) !in TopUsers(users, subs)
    ensures |TopUsers(users, subs)| == TopUsersLimit
    ensures RowOf(u, subs).totalSubscriptionValue
         <= TopUsers(users, subs)[TopUsersLimit - 1].totalSubscriptionValue
  {
    var rows := AnnotatedUsers(users, subs);
    var sorted := SortByValueDesc(rows);
    SortedRows(users, subs);
    var t := RowOf(u, subs);
    assert t in rows;
    assert t in sorted;
    var k :| 0 <= k < |sorted| && sorted[k] == t;
    var r := TopUsers(users, subs);
    assert forall i :: 0 <= i < |r| ==> r[i] == sorted[i];
    assert r[TopUsersLimit - 1] == sorted[TopUsersLimit - 1];
  }

  // ---------------------------------------------------------------------
  // The dashboard
  // ---------------------------------------------------------------------

  datatype Report = Report(
    totalRecurringRevenue: int,
    averageSubscriptionCost: real,
    monthlyRevenueHistory: seq<MonthlyRevenue>,
    topUsers: seq<TopUser>)

  /** The exception `date.replace` raises, which makes the view fail. */
  datatype ViewError = ValueError

  /** `today.replace(year=today.year - 1)`. */
  function TwelveMonthsAgo(today: Date): Option<Date> {
    ReplaceYear(today, today.year - 1)
  }

  /** `today.replace(day=1)`. */
  function StartOfCurrentMonth(today: Date): Date {
    FirstOfMonth(today)
  }

  /**
   * The view's response on day `today`. It fails exactly when the previous
   * year has no such day (29 February) or is out of range (year 1).
   */
  function AnalyticsDashboard(today: Date, subs: seq<Subscription>, users: seq<User>): (r: Result<Report, ViewError>)
    ensures r.Failure? <==> today.year == MinYear || (today.month == 2 && today.day == 29)
    ensures r.Success? ==>
      && r.value.totalRecurringRevenue == TotalRecurringRevenue(subs)
      && r.value.averageSubscriptionCost == AverageSubscriptionCost(subs)
      && r.value.topUsers == TopUsers(users, subs)
      && TwelveMonthsAgo(today).Some?
      && r.value.monthlyRevenueHistory
         == MonthlyRevenueHistory(subs, TwelveMonthsAgo(today).value, StartOfCurrentMonth(today))
  {
    PreviousYearFails(today);
    match TwelveMonthsAgo(today)
    case None => Failure(ValueError)
    case Some(from) =>
      Success(Report(
        TotalRecurringRevenue(subs),
        AverageSubscriptionCost(subs),
        MonthlyRevenueHistory(subs, from, StartOfCurrentMonth(today)),
        TopUsers(users, subs)))
  }

  /**
   * The history of a dashboard covers at most the twelve months before the
   * current one: every row's month is one of them, so there are at most
   * twelve rows and none for the current month.
   */
  lemma DashboardHistoryWindow(today: Date, subs: seq<Subscription>, users: seq<User>)
    requires AnalyticsDashboard(today, subs, users).Success?
    ensures var h := AnalyticsDashboard(today, subs, users).value.monthlyRevenueHistory;
      && |h| <= 12
      && forall i :: 0 <= i < |h| ==>
           MonthIndex(today) - 12 <= MonthIndex(h[i].month) < MonthIndex(today)
           && h[i].month != StartOfCurrentMonth(today)
  {
    var from := TwelveMonthsAgo(today).value;
    var until := StartOfCurrentMonth(today);
    var h := MonthlyRevenueHistory(subs, from, until);
    HistoryMonthsInWindow(subs, from, until);
    forall i | 0 <= i < |h| ensures MonthIndex(today) - 12 <= MonthIndex(h[i].month) < MonthIndex(today) {
      FirstDaysOrderedByMonth(FirstOfMonth(from), h[i].month);
      FirstDaysOrderedByMonth(h[i].month, until);
    }
    AscendingMonthsBounded(h, MonthIndex(today) - 12, MonthIndex(today));
  }

  /** A subscription started in the current month is never counted in the history, whatever its cost. */
  lemma {:induction false} CurrentMonthExcluded(today: Date, a: seq<Subscription>, b: seq<Subscription>, s: Subscription)
    requires TwelveMonthsAgo(today).Some?
    requires SameMonth(s.startDate, today)
    ensures var from, until := TwelveMonthsAgo(today).value, StartOfCurrentMonth(today);
      MonthlyRevenueHistory(a + [s] + b, from, until) == MonthlyRevenueHistory(a + b, from, until)
  {
    var from, until := TwelveMonthsAgo(today).value, StartOfCurrentMonth(today);
    assert !InWindow(s.startDate, from, until);
    HistoryIgnoresOutside(a, [s], b, from, until);
  }

  /** Rows outside the window, inserted anywhere, do not change the history. */
  lemma {:induction false} HistoryIgnoresOutside(a: seq<Subscription>, extra: seq<Subscription>, b: seq<Subscription>,
                                                 from: Date, until: Date)
    requires forall i :: 0 <= i < |extra| ==> !InWindow(extra[i].startDate, from, until)
    ensures MonthlyRevenueHistory(a + extra + b, from, until) == MonthlyRevenueHistory(a + b, from, until)
  {
    if |a| == 0 {
      assert a + extra + b == extra + b;
      assert a + b == b;
      HistorySkipsOutside(extra, b, from, until);
    } else {
      assert (a + extra + b)[0] == (a + b)[0] == a[0];
      assert (a + extra + b)[1..] == a[1..] + extra + b;
      assert (a + b)[1..] == a[1..] + b;
      HistoryIgnoresOutside(a[1..], extra, b, from, until);
    }
  }

  lemma {:induction false} HistorySkipsOutside(extra: seq<Subscription>, b: seq<Subscription>, from: Date, until: Date)
    requires forall i :: 0 <= i < |extra| ==> !InWindow(extra[i].startDate, from, until)
    ensures MonthlyRevenueHistory(extra + b, from, until) == MonthlyRevenueHistory(b, from, until)
  {
    if |extra| == 0 {
      assert extra + b == b;
    } else {
      assert (extra + b)[0] == extra[0];
      assert (extra + b)[1..] == extra[1..] + b;
      HistorySkipsOutside(extra[1..], b, from, until);
    }
  }

  /** A plan's price change leaves the dashboard unchanged: every figure reads the subscriptions' own `planCost`. */
  lemma PriceChangeKeepsDashboard(today: Date, db: Store, users: seq<User>, planId: nat, price: int)
    ensures AnalyticsDashboard(today, UpdatePlanPrice(db, planId, price).subscriptions, users)
         == AnalyticsDashboard(today, db.subscriptions, users)
  {
  }

  // ---------------------------------------------------------------------
  // Worked examples
  // ---------------------------------------------------------------------

  /** Costs 100 (active), 50 (cancelled) and 30 (suspended): revenue 100, average 60. */
  lemma RevenueExample(d: Date)
    ensures var subs := [
        Subscription(1, 1, 1, 100, d, None, Active),
        Subscription(2, 1, 1, 50, d, None, Cancelled),
        Subscription(3, 1, 1, 30, d, None, Suspended)];
      TotalRecurringRevenue(subs) == 100 && AverageSubscriptionCost(subs) == 60.0
  {
    var a := Subscription(1, 1, 1, 100, d, None, Active);
    var b := Subscription(2, 1, 1, 50, d, None, Cancelled);
    var c := Subscription(3, 1, 1, 30, d, None, Suspended);
    var subs := [a, b, c];
    assert subs[1..] == [b, c] && [b, c][1..] == [c] && [c][1..] == [];
    assert ActiveSubscriptions([c]) == [];
    assert ActiveSubscriptions([b, c]) == [];
    assert ActiveSubscriptions(subs) == [a];
    assert [a][1..] == [];
    assert CostSum([a]) == 100;
    assert CostSum([c]) == 30;
    assert CostSum([b, c]) == 80;
    assert CostSum(subs) == 180;
  }

  /**
   * User A holds subscriptions of 200 and 300, user B one of 700, whatever
   * their statuses: the ranking is B (700), then A (500).
   */
  lemma TopUsersExample(s1: Subscription, s2: Subscription, s3: Subscription)
    requires s1.userId == 1 && s2.userId == 2 && s3.userId == 1
    requires s1.planCost == 200 && s2.planCost == 700 && s3.planCost == 300
    ensures var ua, ub := User(1, "a", "a@x", "", ""), User(2, "b", "b@x", "", "");
      TopUsers([ua, ub], [s1, s2, s3]) == [TopUser(2, "b", "b@x", 700), TopUser(1, "a", "a@x", 500)]
  {
    var ua, ub := User(1, "a", "a@x", "", ""), User(2, "b", "b@x", "", "");
    var ra, rb := TopUser(1, "a", "a@x", 500), TopUser(2, "b", "b@x", 700);
    ExampleRows(s1, s2, s3);
    assert AnnotatedUsers([ua, ub], [s1, s2, s3]) == [ra, rb];
    assert [ra, rb][1..] == [rb] && [rb][1..] == [];
    assert SortByValueDesc([rb]) == [rb];
    assert InsertByValue(ra, [rb]) == [rb, ra];
  }

  lemma ExampleRows(s1: Subscription, s2: Subscription, s3: Subscription)
    requires s1.userId == 1 && s2.userId == 2 && s3.userId == 1
    requires s1.planCost == 200 && s2.planCost == 700 && s3.planCost == 300
    ensures var ua, ub := User(1, "a", "a@x", "", ""), User(2, "b", "b@x", "", "");
      AnnotatedUsers([ua, ub], [s1, s2, s3]) == [TopUser(1, "a", "a@x", 500), TopUser(2, "b", "b@x", 700)]
  {
    var ua, ub := User(1, "a", "a@x", "", ""), User(2, "b", "b@x", "", "");
    var subs := [s1, s2, s3];
    ExampleValues(s1, s2, s3);
    assert HasSubscriptions(subs, 1) by { assert subs[0].userId == 1; }
    assert HasSubscriptions(subs, 2) by { assert subs[1].userId == 2; }
    assert [ua, ub][1..] == [ub] && [ub][1..] == [];
    assert AnnotatedUsers([ub], subs) == [RowOf(ub, subs)];
  }

  lemma ExampleValues(s1: Subscription, s2: Subscription, s3: Subscription)
    requires s1.userId == 1 && s2.userId == 2 && s3.userId == 1
    requires s1.planCost == 200 && s2.planCost == 700 && s3.planCost == 300
    ensures SubscriptionValue([s1, s2, s3], 1) == 500 && SubscriptionValue([s1, s2, s3], 2) == 700
  {
    ExampleValueOfFirst(s1, s2, s3);
    ExampleValueOfSecond(s1, s2, s3);
  }

  lemma ExampleValueOfFirst(s1: Subscription, s2: Subscription, s3: Subscription)
    requires s1.userId == 1 && s2.userId == 2 && s3.userId == 1
    requires s1.planCost == 200 && s3.planCost == 300
    ensures SubscriptionValue([s1, s2, s3], 1) == 500
  {
    ExampleTripleOf(s1, s2, s3, 1);
    ExamplePairOf(s2, s3, 1);
    assert SubscriptionsOf([s1, s2, s3], 1) == [s1, s3];
    CostSumAppend([s1], [s3]);
    assert [s1] + [s3] == [s1, s3];
    assert [s1][1..] == [] && [s3][1..] == [];
  }

  lemma ExampleValueOfSecond(s1: Subscription, s2: Subscription, s3: Subscription)
    requires s1.userId == 1 && s2.userId == 2 && s3.userId == 1
    requires s2.planCost == 700
    ensures SubscriptionValue([s1, s2, s3], 2) == 700
  {
    ExampleTripleOf(s1, s2, s3, 2);
    ExamplePairOf(s2, s3, 2);
    assert SubscriptionsOf([s1, s2, s3], 2) == [s2];
    assert [s2][1..] == [];
    assert CostSum([s2]) == s2.planCost + CostSum([]);
  }

  lemma ExampleTripleOf(s1: Subscription, s2: Subscription, s3: Subscription, uid: nat)
    ensures SubscriptionsOf([s1, s2, s3], uid) == (if s1.userId == uid then [s1] else []) + SubscriptionsOf([s2, s3], uid)
  {
    SubscriptionsOfCons(s1, [s2, s3], uid);
    assert [s1, s2, s3] == [s1] + [s2, s3];
  }

  lemma ExamplePairOf(s2: Subscription, s3: Subscription, uid: nat)
    ensures SubscriptionsOf([s2, s3], uid) == (if s2.userId == uid then [s2] else []) + (if s3.userId == uid then [s3] else [])
  {
    SubscriptionsOfCons(s3, [], uid);
    assert [s3] == [s3] + [];
    SubscriptionsOfCons(s2, [s3], uid);
    assert [s2, s3] == [s2] + [s3];
  }

  lemma SubscriptionsOfCons(x: Subscription, xs: seq<Subscription>, uid: nat)
    ensures SubscriptionsOf([x] + xs, uid) == (if x.userId == uid then [x] else []) + SubscriptionsOf(xs, uid)
  {
    assert ([x] + xs)[1..] == xs;
  }
}
