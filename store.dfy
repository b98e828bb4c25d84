/** What the tracker's mutators do to the expense list, as functions of the
    old list, and how the derived views respond to each change. */
module Store {
  import opened Model
  import opened Seqs
  import opened Views

  /** The filter callback of `deleteExpense`: `expense.id !== expenseId`. */
  function HasOtherId(id: int): Expense -> bool {
    (e: Expense) => e.id != id
  }

  /** The filter callback of `clearAllExpenses`: dated in another month. */
  function IsOutsideMonth(month: string): Expense -> bool {
    (e: Expense) => !InMonth(e, month)
  }

  /** `deleteExpense`: every entry with the given id goes, the others stay in
      their order, and an absent id changes nothing. */
  function RemoveById(es: seq<Expense>, id: int): (r: seq<Expense>)
    ensures forall e :: e in r <==> e in es && e.id != id
    ensures forall e :: multiset(r)[e] == if e.id != id then multiset(es)[e] else 0
    ensures IsSubsequence(r, es)
    ensures (forall e :: e in es ==> e.id != id) ==> r == es
  {
    FilterMembership(es, HasOtherId(id));
    FilterCount(es, HasOtherId(id));
    FilterIsSubsequence(es, HasOtherId(id));
    if forall e :: e in es ==> e.id != id then FilterKeepsAll(es, HasOtherId(id)); Filter(es, HasOtherId(id))
    else Filter(es, HasOtherId(id))
  }

  /** `clearAllExpenses`: the entries dated in `month` go, the others stay in
      their order. */
  function RemoveMonth(es: seq<Expense>, month: string): (r: seq<Expense>)
    ensures forall e :: e in r <==> e in es && !InMonth(e, month)
    ensures forall e :: multiset(r)[e] == if InMonth(e, month) then 0 else multiset(es)[e]
    ensures IsSubsequence(r, es)
  {
    FilterMembership(es, IsOutsideMonth(month));
    FilterCount(es, IsOutsideMonth(month));
    FilterIsSubsequence(es, IsOutsideMonth(month));
    Filter(es, IsOutsideMonth(month))
  }

  /** Clearing keeps exactly the complement of the current-month view: the
      two together are the old list, and afterwards the view is empty. */
  lemma ClearKeepsComplement(d: BudgetData, month: string)
    ensures multiset(CurrentMonthExpenses(d, month)) + multiset(RemoveMonth(d.expenses, month))
            == multiset(d.expenses)
    ensures CurrentMonthExpenses(d.(expenses := RemoveMonth(d.expenses, month)), month) == []
    ensures TotalSpent(d.(expenses := RemoveMonth(d.expenses, month)), month) == 0.0
  {
    assert forall e :: IsOutsideMonth(month)(e) == !IsInMonth(month)(e);
    FilterPartition(d.expenses, IsInMonth(month), IsOutsideMonth(month));
    var cleared := RemoveMonth(d.expenses, month);
    FilterDropsAll(cleared, IsInMonth(month));
  }

  /** What adding a checked expense promises about the new state at once:
      the total of the expense's own month grows by its amount, and a
      well-formed state stays well formed. */
  lemma PrependedState(d: BudgetData, e: Expense)
    requires e.amount > 0.0 && e.category != ""
    ensures var a := d.(expenses := [e] + d.expenses);
      && TotalSpent(a, MonthOf(e.date)) == TotalSpent(d, MonthOf(e.date)) + e.amount
      && (WellFormed(d) ==> WellFormed(a))
  {
    PrependTotalSpent(d, e, MonthOf(e.date));
  }

  /** Everything clearing a month promises about the new state at once: the
      month is empty, it and the rest make up the old list, and a
      well-formed state stays well formed. */
  lemma ClearedState(d: BudgetData, month: string)
    ensures var c := d.(expenses := RemoveMonth(d.expenses, month));
      && CurrentMonthExpenses(c, month) == []
      && multiset(CurrentMonthExpenses(d, month)) + multiset(c.expenses) == multiset(d.expenses)
      && (WellFormed(d) ==> WellFormed(c))
  {
    ClearKeepsComplement(d, month);
  }

  /** Clearing a month leaves the views of every other month as they were. */
  lemma ClearKeepsOtherMonths(d: BudgetData, month: string, other: string)
    requires other != month
    ensures CurrentMonthExpenses(d.(expenses := RemoveMonth(d.expenses, month)), other)
            == CurrentMonthExpenses(d, other)
  {
    FilterOfFilter(d.expenses, IsOutsideMonth(month), IsInMonth(other));
  }

  /** `unshift` of one expense: the current month's total grows by its amount
      when it is dated in that month and is otherwise unchanged. */
  lemma PrependTotalSpent(d: BudgetData, e: Expense, month: string)
    ensures TotalSpent(d.(expenses := [e] + d.expenses), month)
            == TotalSpent(d, month) + (if InMonth(e, month) then e.amount else 0.0)
  {
    var head := if InMonth(e, month) then [e] else [];
    assert Filter([e] + d.expenses, IsInMonth(month)) == head + Filter(d.expenses, IsInMonth(month)) by {
      assert ([e] + d.expenses)[0] == e && ([e] + d.expenses)[1..] == d.expenses;
    }
    SumConcat(head, Filter(d.expenses, IsInMonth(month)));
    assert Sum(head) == if InMonth(e, month) then e.amount else 0.0 by {
      if InMonth(e, month) { assert head[..0] == []; }
    }
  }

  /** Prepending expenses dated in a month raises that month's total by the
      sum of their amounts; by `TotalSpentOrderFree` the order in which they
      were added does not matter. */
  lemma {:induction false} AddedTotal(d: BudgetData, added: seq<Expense>, month: string)
    requires forall e :: e in added ==> InMonth(e, month)
    ensures TotalSpent(d.(expenses := added + d.expenses), month) == Sum(added) + TotalSpent(d, month)
  {
    FilterConcat(added, d.expenses, IsInMonth(month));
    FilterKeepsAll(added, IsInMonth(month));
    SumConcat(added, Filter(d.expenses, IsInMonth(month)));
  }

  /** In a well-formed state deleting never raises a month's total, and
      deleting an absent id leaves it as it was. */
  lemma RemoveByIdTotalSpent(d: BudgetData, id: int, month: string)
    requires WellFormed(d)
    ensures TotalSpent(d.(expenses := RemoveById(d.expenses, id)), month) <= TotalSpent(d, month)
    ensures (forall e :: e in d.expenses ==> e.id != id) ==>
            TotalSpent(d.(expenses := RemoveById(d.expenses, id)), month) == TotalSpent(d, month)
  {
    DeleteMonotone(d.expenses, id, month);
  }

  /** Dropping positive amounts from a month's entries cannot raise their sum. */
  lemma {:induction false} DeleteMonotone(es: seq<Expense>, id: int, month: string)
    requires forall e :: e in es ==> e.amount > 0.0
    ensures Sum(Filter(Filter(es, HasOtherId(id)), IsInMonth(month))) <= Sum(Filter(es, IsInMonth(month)))
  {
    if es != [] {
      var x, rest := es[0], es[1..];
      assert es == [x] + rest;
      DeleteMonotone(rest, id, month);
      var kept := Filter(rest, HasOtherId(id));
      var a := Filter(kept, IsInMonth(month));
      var b := Filter(rest, IsInMonth(month));
      var hx := if InMonth(x, month) then [x] else [];
      assert Filter(es, IsInMonth(month)) == hx + b;
      SumConcat(hx, b);
      assert Sum(hx) >= 0.0 by { if InMonth(x, month) { assert hx[..0] == []; } }
      if x.id != id {
        assert Filter(es, HasOtherId(id)) == [x] + kept;
        assert ([x] + kept)[0] == x && ([x] + kept)[1..] == kept;
        assert Filter([x] + kept, IsInMonth(month)) == hx + a;
        SumConcat(hx, a);
      } else {
        assert Filter(es, HasOtherId(id)) == kept;
      }
    }
  }

  /** Each mutator keeps a well-formed state well formed when its guards pass. */
  lemma MutatorsKeepWellFormed(d: BudgetData, e: Expense, id: int, month: string, budget: real, code: string)
    requires WellFormed(d)
    ensures e.amount > 0.0 && e.category != "" ==> WellFormed(d.(expenses := [e] + d.expenses))
    ensures WellFormed(d.(expenses := RemoveById(d.expenses, id)))
    ensures WellFormed(d.(expenses := RemoveMonth(d.expenses, month)))
    ensures budget > 0.0 ==> WellFormed(d.(monthlyBudget := budget))
    ensures WellFormed(d.(selectedCurrency := code))
  {
  }

  /** `find(exp => exp.id === expenseId)`: the first entry with that id, or
      nothing when no entry has it. */
  function FindById(es: seq<Expense>, id: int): (r: Option<Expense>)
    ensures r.Some? <==> exists e :: e in es && e.id == id
    ensures r.Some? ==> r.value in es && r.value.id == id
    ensures r.Some? ==> exists k :: 0 <= k < |es| && es[k] == r.value && forall j :: 0 <= j < k ==> es[j].id != id
  {
    if es == [] then None
    else if es[0].id == id then Some(es[0])
    else
      var r := FindById(es[1..], id);
      assert forall e :: e in es[1..] ==> e in es;
      assert r.Some? ==> exists k :: 0 <= k < |es| - 1 && es[1..][k] == r.value && forall j :: 0 <= j < k ==> es[1..][j].id != id;
      r
  }
}
