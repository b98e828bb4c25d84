/** The derived, read-only views of the state: the current month's expenses,
    what was spent, what remains, the share of the budget used, and the two
    tiered signals computed from them. "The current month" is a parameter: the
    `YYYY-MM` prefix of the clock's ISO timestamp at the time of the call. */
module Views {
  import opened Model
  import opened Seqs

  /** `date.substring(0, 7)`: the first seven characters, or the whole string
      when it is shorter. */
  function MonthOf(date: string): (m: string)
    ensures m <= date
    ensures |m| == if |date| < 7 then |date| else 7
  {
    if |date| <= 7 then date else date[..7]
  }

  predicate InMonth(e: Expense, month: string) {
    MonthOf(e.date) == month
  }

  /** The filter callback of `getCurrentMonthExpenses`. */
  function IsInMonth(month: string): Expense -> bool {
    e => InMonth(e, month)
  }

  /** `getCurrentMonthExpenses`: the expenses dated in `month`, in list order. */
  function CurrentMonthExpenses(d: BudgetData, month: string): (r: seq<Expense>)
    ensures forall e :: e in r <==> e in d.expenses && InMonth(e, month)
    ensures forall e :: multiset(r)[e] == if InMonth(e, month) then multiset(d.expenses)[e] else 0
    ensures IsSubsequence(r, d.expenses)
  {
    FilterMembership(d.expenses, IsInMonth(month));
    FilterCount(d.expenses, IsInMonth(month));
    FilterIsSubsequence(d.expenses, IsInMonth(month));
    Filter(d.expenses, IsInMonth(month))
  }

  /** `reduce((total, e) => total + e.amount, 0)`, folding from the left. */
  function Sum(es: seq<Expense>): real {
    if es == [] then 0.0 else Sum(es[..|es| - 1]) + es[|es| - 1].amount
  }

  lemma {:induction false} SumConcat(a: seq<Expense>, b: seq<Expense>)
    ensures Sum(a + b) == Sum(a) + Sum(b)
  {
    if b == [] {
      assert a + b == a;
    } else {
      assert (a + b)[..|a + b| - 1] == a + b[..|b| - 1];
      assert (a + b)[|a + b| - 1] == b[|b| - 1];
      SumConcat(a, b[..|b| - 1]);
    }
  }

  /** Positive amounts have a non-negative sum, positive unless there are none. */
  lemma {:induction false} SumPositive(es: seq<Expense>)
    requires forall e :: e in es ==> e.amount > 0.0
    ensures Sum(es) >= 0.0
    ensures es != [] ==> Sum(es) > 0.0
  {
    if es != [] {
      SumPositive(es[..|es| - 1]);
    }
  }

  /** One element in front adds its amount. */
  lemma SumCons(x: Expense, es: seq<Expense>)
    ensures Sum([x] + es) == x.amount + Sum(es)
  {
    SumConcat([x], es);
    assert [x][..0] == [];
  }

  /** The total does not depend on the order of the list: two lists holding
      the same expenses as often have the same sum. */
  lemma {:induction false} SumPermutation(a: seq<Expense>, b: seq<Expense>)
    requires multiset(a) == multiset(b)
    ensures Sum(a) == Sum(b)
    decreases |a|
  {
    if a == [] {
      assert |b| == |multiset(b)| == 0;
    } else {
      var x := a[0];
      assert a == [x] + a[1..];
      assert x in multiset(b);
      var k :| 0 <= k < |b| && b[k] == x;
      var rest := b[..k] + b[k + 1..];
      RemoveAtMultiset(b, k);
      assert multiset(rest) == multiset(a[1..]) by {
        forall y ensures multiset(rest)[y] == multiset(a[1..])[y] {
          assert multiset(a)[y] == multiset{x}[y] + multiset(a[1..])[y];
        }
      }
      SumPermutation(a[1..], rest);
      SumCons(x, a[1..]);
      SumRemoveAt(b, k);
    }
  }

  /** Taking out the element at `k` takes one copy of it out of the bag. */
  lemma RemoveAtMultiset(b: seq<Expense>, k: nat)
    requires k < |b|
    ensures multiset(b) == multiset(b[..k] + b[k + 1..]) + multiset{b[k]}
  {
    assert b == b[..k] + [b[k]] + b[k + 1..];
  }

  /** The total is the amount at `k` plus the total of the rest. */
  lemma SumRemoveAt(b: seq<Expense>, k: nat)
    requires k < |b|
    ensures Sum(b) == b[k].amount + Sum(b[..k] + b[k + 1..])
  {
    SplitAt(b, k);
    SumMiddle(b[..k], b[k], b[k + 1..]);
  }

  lemma SplitAt(b: seq<Expense>, k: nat)
    requires k < |b|
    ensures b == b[..k] + ([b[k]] + b[k + 1..])
  {
  }

  /** An element in the middle adds its amount. */
  lemma SumMiddle(front: seq<Expense>, x: Expense, back: seq<Expense>)
    ensures Sum(front + ([x] + back)) == x.amount + Sum(front + back)
  {
    SumConcat(front, [x] + back);
    SumCons(x, back);
    SumConcat(front, back);
  }

  /** `getTotalSpent`. */
  function TotalSpent(d: BudgetData, month: string): real {
    Sum(CurrentMonthExpenses(d, month))
  }

  /** The order in which expenses were added does not change what was spent:
      lists holding the same expenses give the same totals in every month. */
  lemma TotalSpentOrderFree(d: BudgetData, d': BudgetData, month: string)
    requires multiset(d.expenses) == multiset(d'.expenses)
    ensures TotalSpent(d, month) == TotalSpent(d', month)
  {
    var a, b := CurrentMonthExpenses(d, month), CurrentMonthExpenses(d', month);
    assert multiset(a) == multiset(b) by {
      forall e ensures multiset(a)[e] == multiset(b)[e] { }
    }
    SumPermutation(a, b);
  }

  /** `getRemainingBudget`: negative exactly when this month's spending is
      over the budget. */
  function RemainingBudget(d: BudgetData, month: string): (r: real)
    ensures r + TotalSpent(d, month) == d.monthlyBudget
    ensures r < 0.0 <==> TotalSpent(d, month) > d.monthlyBudget
  {
    d.monthlyBudget - TotalSpent(d, month)
  }

  /** `getBudgetUsedPercentage`: zero for a zero budget, otherwise the spent
      amount as a percentage of the budget. */
  function BudgetUsedPercentage(d: BudgetData, month: string): (r: real)
    ensures d.monthlyBudget == 0.0 ==> r == 0.0
    ensures d.monthlyBudget != 0.0 ==> r * d.monthlyBudget == 100.0 * TotalSpent(d, month)
  {
    if d.monthlyBudget == 0.0 then 0.0 else TotalSpent(d, month) / d.monthlyBudget * 100.0
  }

  /** In a well-formed state nothing is spent below zero and at most all of
      the budget is left. */
  lemma WellFormedViews(d: BudgetData, month: string)
    requires WellFormed(d)
    ensures TotalSpent(d, month) >= 0.0
    ensures RemainingBudget(d, month) <= d.monthlyBudget
    ensures BudgetUsedPercentage(d, month) >= 0.0
  {
    SumPositive(CurrentMonthExpenses(d, month));
    var b, t := d.monthlyBudget, TotalSpent(d, month);
    if b != 0.0 {
      assert t / b >= 0.0;
    }
  }

  /** The toast `checkBudgetWarnings` raises after an expense is added. */
  datatype BudgetWarning = Exceeded | CloseToLimit | MostlyUsed | NoWarning

  /** `checkBudgetWarnings`: the first matching tier in the order
      over budget, at least 90% used, at least 75% used. */
  function CheckBudgetWarnings(d: BudgetData, month: string): (w: BudgetWarning)
    ensures w == Exceeded <==> RemainingBudget(d, month) < 0.0
    ensures w == CloseToLimit <==> RemainingBudget(d, month) >= 0.0 && BudgetUsedPercentage(d, month) >= 90.0
    ensures w == MostlyUsed <==>
      RemainingBudget(d, month) >= 0.0 && 75.0 <= BudgetUsedPercentage(d, month) < 90.0
    ensures w == NoWarning <==> RemainingBudget(d, month) >= 0.0 && BudgetUsedPercentage(d, month) < 75.0
  {
    var used, remaining := BudgetUsedPercentage(d, month), RemainingBudget(d, month);
    if remaining < 0.0 then Exceeded
    else if used >= 90.0 then CloseToLimit
    else if used >= 75.0 then MostlyUsed
    else NoWarning
  }

  /** The warning classes `updateBudgetOverview` puts on the overview cards
      and the progress bar. */
  datatype OverviewLevel = Danger | Warning | Normal

  function OverviewLevelOf(d: BudgetData, month: string): (l: OverviewLevel)
    ensures l == Danger <==> BudgetUsedPercentage(d, month) >= 100.0
    ensures l == Warning <==> 80.0 <= BudgetUsedPercentage(d, month) < 100.0
    ensures l == Normal <==> BudgetUsedPercentage(d, month) < 80.0
  {
    var used := BudgetUsedPercentage(d, month);
    if used >= 100.0 then Danger else if used >= 80.0 then Warning else Normal
  }

  /** With a positive budget, the warning tiers are bands of the amount spent. */
  lemma WarningBySpending(d: BudgetData, month: string)
    requires d.monthlyBudget > 0.0
    ensures var b, t, w := d.monthlyBudget, TotalSpent(d, month), CheckBudgetWarnings(d, month);
      && (w == Exceeded <==> t > b)
      && (w == CloseToLimit <==> 9.0 * b <= 10.0 * t <= 10.0 * b)
      && (w == MostlyUsed <==> 3.0 * b <= 4.0 * t && 10.0 * t < 9.0 * b)
      && (w == NoWarning <==> 4.0 * t < 3.0 * b)
  {
    var b, t, used := d.monthlyBudget, TotalSpent(d, month), BudgetUsedPercentage(d, month);
    assert used * b == 100.0 * t;
    PercentageBands(b, t, used);
  }

  /** With a positive budget, the overview classes are bands of the amount
      spent. */
  lemma OverviewBySpending(d: BudgetData, month: string)
    requires d.monthlyBudget > 0.0
    ensures var b, t, l := d.monthlyBudget, TotalSpent(d, month), OverviewLevelOf(d, month);
      && (l == Danger <==> t >= b)
      && (l == Warning <==> 4.0 * b <= 5.0 * t && t < b)
      && (l == Normal <==> 5.0 * t < 4.0 * b)
  {
    var b, t, used := d.monthlyBudget, TotalSpent(d, month), BudgetUsedPercentage(d, month);
    assert used * b == 100.0 * t;
    PercentageBands(b, t, used);
  }

  /** Whenever the "exceeded" toast is raised with a budget set, the overview
      shows the danger class too. */
  lemma ExceededShowsDanger(d: BudgetData, month: string)
    requires d.monthlyBudget > 0.0
    ensures CheckBudgetWarnings(d, month) == Exceeded ==> OverviewLevelOf(d, month) == Danger
  {
    WarningBySpending(d, month);
    OverviewBySpending(d, month);
  }

  /** `used * b == 100 * t` with `b > 0` turns each percentage threshold
      into a threshold on `t`. */
  lemma PercentageBands(b: real, t: real, used: real)
    requires b > 0.0 && used * b == 100.0 * t
    ensures used >= 100.0 <==> t >= b
    ensures used > 100.0 <==> t > b
    ensures used >= 90.0 <==> 10.0 * t >= 9.0 * b
    ensures used >= 80.0 <==> 5.0 * t >= 4.0 * b
    ensures used >= 75.0 <==> 4.0 * t >= 3.0 * b
  {
    AtLeast(used, b, t, 100.0);
    Above(used, b, t, 100.0);
    AtLeast(used, b, t, 90.0);
    AtLeast(used, b, t, 80.0);
    AtLeast(used, b, t, 75.0);
  }

  lemma AtLeast(u: real, b: real, t: real, c: real)
    requires b > 0.0 && u * b == 100.0 * t
    ensures u >= c <==> 100.0 * t >= c * b
  {
    if u >= c { MulLe(c, u, b); } else { MulLt(u, c, b); }
  }

  lemma Above(u: real, b: real, t: real, c: real)
    requires b > 0.0 && u * b == 100.0 * t
    ensures u > c <==> 100.0 * t > c * b
  {
    if u > c { MulLt(c, u, b); } else { MulLe(u, c, b); }
  }

  lemma MulLe(x: real, y: real, b: real)
    requires b > 0.0 && x <= y
    ensures x * b <= y * b
  {
    assert (y - x) * b >= 0.0;
  }

  lemma MulLt(x: real, y: real, b: real)
    requires b > 0.0 && x < y
    ensures x * b < y * b
  {
    assert (y - x) * b > 0.0;
  }

  /** With no budget set, any spending raises the "exceeded" toast while the
      overview shows no warning class, because the percentage is pinned at 0. */
  lemma ZeroBudgetSignals(d: BudgetData, month: string)
    requires d.monthlyBudget == 0.0
    ensures CheckBudgetWarnings(d, month) == Exceeded <==> TotalSpent(d, month) > 0.0
    ensures CheckBudgetWarnings(d, month) != Exceeded ==> CheckBudgetWarnings(d, month) == NoWarning
    ensures OverviewLevelOf(d, month) == Normal
  {
  }
}
