/** `getCategoryTotals`: the current month's expenses grouped by category in
    an insertion-ordered dictionary, turned into `{category, amount}` records
    and sorted by amount, largest first, with a stable sort. */
module CategoryTotals {
  import opened Model
  import opened Seqs
  import opened Views

  datatype CategoryTotal = CategoryTotal(category: string, amount: real)

  /** What the expenses of category `c` in `es` add up to. */
  function CategorySum(es: seq<Expense>, c: string): real {
    if es == [] then 0.0
    else CategorySum(es[..|es| - 1], c) + (if es[|es| - 1].category == c then es[|es| - 1].amount else 0.0)
  }

  function ExpenseCategories(es: seq<Expense>): set<string> {
    set e | e in es :: e.category
  }

  function Categories(t: seq<CategoryTotal>): set<string> {
    set x | x in t :: x.category
  }

  ghost predicate DistinctCategories(t: seq<CategoryTotal>) {
    forall i, j :: 0 <= i < j < |t| ==> t[i].category != t[j].category
  }

  /** The sum of the amounts of a list of records. */
  function TotalOf(t: seq<CategoryTotal>): real {
    if t == [] then 0.0 else t[0].amount + TotalOf(t[1..])
  }

  /** The position of the record for `c`, or `|t|` when there is none. */
  function Find(t: seq<CategoryTotal>, c: string): (i: nat)
    ensures i <= |t|
    ensures i < |t| ==> t[i].category == c
    ensures forall k :: 0 <= k < i ==> t[k].category != c
  {
    if t == [] then 0 else if t[0].category == c then 0 else 1 + Find(t[1..], c)
  }

  /** One step of the `forEach`: `totals[c] = (totals[c] || 0) + amount` on a
      dictionary whose keys keep their insertion order. */
  function AddTo(t: seq<CategoryTotal>, e: Expense): seq<CategoryTotal> {
    var i := Find(t, e.category);
    if i < |t| then t[i := CategoryTotal(e.category, t[i].amount + e.amount)]
    else t + [CategoryTotal(e.category, e.amount)]
  }

  /** The dictionary after the whole `forEach`, as its entries in key order. */
  function Tally(es: seq<Expense>): seq<CategoryTotal> {
    if es == [] then [] else AddTo(Tally(es[..|es| - 1]), es[|es| - 1])
  }

  lemma {:induction false} CategorySumAbsent(es: seq<Expense>, c: string)
    requires c !in ExpenseCategories(es)
    ensures CategorySum(es, c) == 0.0
  {
    if es != [] {
      var init := es[..|es| - 1];
      assert forall e :: e in init ==> e in es;
      assert es[|es| - 1] in es;
      CategorySumAbsent(init, c);
    }
  }

  lemma {:induction false} TotalOfUpdate(t: seq<CategoryTotal>, i: nat, x: CategoryTotal)
    requires i < |t|
    ensures TotalOf(t[i := x]) == TotalOf(t) - t[i].amount + x.amount
  {
    if i > 0 {
      TotalOfUpdate(t[1..], i - 1, x);
      assert t[i := x][1..] == t[1..][i - 1 := x];
    }
  }

  lemma {:induction false} TotalOfAppend(t: seq<CategoryTotal>, x: CategoryTotal)
    ensures TotalOf(t + [x]) == TotalOf(t) + x.amount
  {
    if t != [] {
      assert (t + [x])[1..] == t[1..] + [x];
      TotalOfAppend(t[1..], x);
    }
  }

  /** `t` is a correct grouping of `es`: one record per category of `es`, no
      category twice, each record holding its category's sum, and the
      records adding up to the sum of `es`. */
  ghost predicate Grouped(t: seq<CategoryTotal>, es: seq<Expense>) {
    && DistinctCategories(t)
    && Categories(t) == ExpenseCategories(es)
    && (forall k :: 0 <= k < |t| ==> t[k].amount == CategorySum(es, t[k].category))
    && TotalOf(t) == Sum(es)
  }

  /** Adding an expense of a category already present keeps the grouping right. */
  lemma {:induction false} GroupedUpdate(t: seq<CategoryTotal>, init: seq<Expense>, e: Expense)
    requires Grouped(t, init)
    requires Find(t, e.category) < |t|
    ensures Grouped(AddTo(t, e), init + [e])
  {
    var es, c, i := init + [e], e.category, Find(t, e.category);
    assert es[..|es| - 1] == init && es[|es| - 1] == e;
    assert ExpenseCategories(es) == ExpenseCategories(init) + {c};
    var u := t[i := CategoryTotal(c, t[i].amount + e.amount)];
    assert AddTo(t, e) == u;
    forall k | 0 <= k < |u| ensures u[k].amount == CategorySum(es, u[k].category) {
      if k != i {
        assert u[k] == t[k] && t[k].category != c;
      }
    }
    assert Categories(u) == Categories(t) by {
      forall y | y in Categories(t) ensures y in Categories(u) {
        var k :| 0 <= k < |t| && t[k].category == y;
        assert u[k].category == y;
      }
    }
    assert c in Categories(t) by { assert t[i] in t; }
    TotalOfUpdate(t, i, CategoryTotal(c, t[i].amount + e.amount));
  }

  /** Adding an expense of a new category keeps the grouping right. */
  lemma {:induction false} GroupedAppend(t: seq<CategoryTotal>, init: seq<Expense>, e: Expense)
    requires Grouped(t, init)
    requires Find(t, e.category) == |t|
    ensures Grouped(AddTo(t, e), init + [e])
  {
    var es, c := init + [e], e.category;
    assert es[..|es| - 1] == init && es[|es| - 1] == e;
    assert ExpenseCategories(es) == ExpenseCategories(init) + {c};
    var u := t + [CategoryTotal(c, e.amount)];
    assert AddTo(t, e) == u;
    assert c !in Categories(t);
    CategorySumAbsent(init, c);
    forall k | 0 <= k < |u| ensures u[k].amount == CategorySum(es, u[k].category) {
      if k < |t| {
        assert u[k] == t[k] && t[k] in t;
      }
    }
    assert Categories(u) == Categories(t) + {c};
    TotalOfAppend(t, CategoryTotal(c, e.amount));
  }

  /** The grouping of the `forEach` is right for every list of expenses. */
  lemma {:induction false} TallyGrouped(es: seq<Expense>)
    ensures Grouped(Tally(es), es)
  {
    if es != [] {
      var init, e := es[..|es| - 1], es[|es| - 1];
      assert es == init + [e];
      TallyGrouped(init);
      if Find(Tally(init), e.category) < |Tally(init)| {
        GroupedUpdate(Tally(init), init, e);
      } else {
        GroupedAppend(Tally(init), init, e);
      }
    }
  }

  /** The position of the first expense of category `c` in `es`, or `|es|`
      when there is none. */
  function FirstIndex(es: seq<Expense>, c: string): (k: nat)
    ensures k <= |es|
    ensures k < |es| <==> c in ExpenseCategories(es)
    ensures k < |es| ==> es[k].category == c
    ensures forall j :: 0 <= j < k ==> es[j].category != c
  {
    if es == [] then 0
    else if es[0].category == c then 0
    else
      var k := 1 + FirstIndex(es[1..], c);
      assert es[0] in es && forall e :: e in es[1..] ==> e in es;
      assert c in ExpenseCategories(es[1..]) ==> c in ExpenseCategories(es);
      assert c in ExpenseCategories(es) ==> c in ExpenseCategories(es[1..]) by {
        if c in ExpenseCategories(es) {
          var e :| e in es && e.category == c;
          var j :| 0 <= j < |es| && es[j] == e;
          assert j != 0 && es[1..][j - 1] == e;
        }
      }
      k
  }

  /** Appending an expense leaves the first position of every category
      already present, and a new category's first position is the end. */
  lemma FirstIndexAppend(init: seq<Expense>, e: Expense, c: string)
    ensures c in ExpenseCategories(init) ==> FirstIndex(init + [e], c) == FirstIndex(init, c)
    ensures c !in ExpenseCategories(init) && c == e.category ==> FirstIndex(init + [e], c) == |init|
  {
    var es, k, n := init + [e], FirstIndex(init, c), FirstIndex(init + [e], c);
    assert forall j :: 0 <= j < |init| ==> es[j] == init[j] && init[j] in init;
    if c in ExpenseCategories(init) {
      assert es[k] == init[k];
    } else if c == e.category {
      assert es[|init|] == e;
    }
  }

  /** The records appear in the order in which their categories first occur
      in `es`. */
  ghost predicate FirstSeenOrder(t: seq<CategoryTotal>, es: seq<Expense>) {
    forall i, j :: 0 <= i < j < |t| ==> FirstIndex(es, t[i].category) < FirstIndex(es, t[j].category)
  }

  /** Appending an expense keeps the first position of every category
      already recorded in `t`. */
  lemma FirstIndexKept(t: seq<CategoryTotal>, init: seq<Expense>, e: Expense)
    requires Categories(t) == ExpenseCategories(init)
    ensures forall k :: 0 <= k < |t| ==> FirstIndex(init + [e], t[k].category) == FirstIndex(init, t[k].category)
  {
    forall k | 0 <= k < |t| ensures FirstIndex(init + [e], t[k].category) == FirstIndex(init, t[k].category) {
      assert t[k] in t && t[k].category in Categories(t);
      FirstIndexAppend(init, e, t[k].category);
    }
  }

  /** The order of first occurrence survives appending an expense. */
  lemma OrderKept(t: seq<CategoryTotal>, init: seq<Expense>, e: Expense)
    requires Categories(t) == ExpenseCategories(init)
    requires FirstSeenOrder(t, init)
    ensures FirstSeenOrder(t, init + [e])
  {
    FirstIndexKept(t, init, e);
  }

  /** The order depends only on the categories of the records. */
  lemma OrderOfCategories(t: seq<CategoryTotal>, u: seq<CategoryTotal>, es: seq<Expense>)
    requires |u| == |t| && forall k :: 0 <= k < |t| ==> u[k].category == t[k].category
    requires FirstSeenOrder(t, es)
    ensures FirstSeenOrder(u, es)
  {
    forall a, b | 0 <= a < b < |u| ensures FirstIndex(es, u[a].category) < FirstIndex(es, u[b].category) {
      assert u[a].category == t[a].category && u[b].category == t[b].category;
    }
  }

  /** Adding to a record already present changes only that record's amount. */
  lemma AddToKeepsCategories(t: seq<CategoryTotal>, e: Expense)
    requires Find(t, e.category) < |t|
    ensures |AddTo(t, e)| == |t|
    ensures forall k :: 0 <= k < |t| ==> AddTo(t, e)[k].category == t[k].category
  {
  }

  /** Adding to a record already present keeps the order of first occurrence. */
  lemma OrderUpdate(t: seq<CategoryTotal>, init: seq<Expense>, e: Expense)
    requires Categories(t) == ExpenseCategories(init)
    requires FirstSeenOrder(t, init)
    requires Find(t, e.category) < |t|
    ensures FirstSeenOrder(AddTo(t, e), init + [e])
  {
    AddToKeepsCategories(t, e);
    OrderKept(t, init, e);
    OrderOfCategories(t, AddTo(t, e), init + [e]);
  }

  /** A new category goes last, and its first occurrence is the new expense,
      after every earlier one. */
  lemma OrderAppend(t: seq<CategoryTotal>, init: seq<Expense>, e: Expense)
    requires Categories(t) == ExpenseCategories(init)
    requires FirstSeenOrder(t, init)
    requires Find(t, e.category) == |t|
    ensures FirstSeenOrder(AddTo(t, e), init + [e])
  {
    var c, es := e.category, init + [e];
    assert c !in Categories(t);
    FirstIndexAppend(init, e, c);
    FirstIndexKept(t, init, e);
    OrderKept(t, init, e);
    forall k | 0 <= k < |t| ensures FirstIndex(es, t[k].category) < FirstIndex(es, c) {
      assert t[k] in t && t[k].category in Categories(t);
    }
    OrderSnoc(t, CategoryTotal(c, e.amount), es);
  }

  /** A record whose category occurs after all of `t`'s may follow them. */
  lemma OrderSnoc(t: seq<CategoryTotal>, x: CategoryTotal, es: seq<Expense>)
    requires FirstSeenOrder(t, es)
    requires forall k :: 0 <= k < |t| ==> FirstIndex(es, t[k].category) < FirstIndex(es, x.category)
    ensures FirstSeenOrder(t + [x], es)
  {
    var u := t + [x];
    forall a, b | 0 <= a < b < |u| ensures FirstIndex(es, u[a].category) < FirstIndex(es, u[b].category) {
      assert u[a] == t[a];
      if b < |t| { assert u[b] == t[b]; }
    }
  }

  /** A JavaScript object lists its (non-integer) keys in the order they were
      first set, so the grouping lists categories in order of first
      occurrence. */
  lemma {:induction false} TallyOrder(es: seq<Expense>)
    ensures FirstSeenOrder(Tally(es), es)
  {
    if es != [] {
      var init, e := es[..|es| - 1], es[|es| - 1];
      assert es == init + [e];
      TallyOrder(init);
      TallyGrouped(init);
      if Find(Tally(init), e.category) < |Tally(init)| {
        OrderUpdate(Tally(init), init, e);
      } else {
        OrderAppend(Tally(init), init, e);
      }
    }
  }

  /** The grouping is right, and in order of first occurrence. */
  lemma TallyCorrect(es: seq<Expense>)
    ensures Grouped(Tally(es), es)
    ensures FirstSeenOrder(Tally(es), es)
  {
    TallyGrouped(es);
    TallyOrder(es);
  }

  /** The comparator `(a, b) => b.amount - a.amount`, as a predicate on a list. */
  ghost predicate SortedByAmount(t: seq<CategoryTotal>) {
    forall i, j :: 0 <= i < j < |t| ==> t[i].amount >= t[j].amount
  }

  /** Places `x` after every record of `t` whose amount is at least its own. */
  function Insert(t: seq<CategoryTotal>, x: CategoryTotal): (r: seq<CategoryTotal>)
    ensures |r| == |t| + 1
  {
    if t == [] then [x]
    else if t[0].amount >= x.amount then [t[0]] + Insert(t[1..], x)
    else [x] + t
  }

  /** The library sort with that comparator, which is stable: an insertion sort
      that takes the records in their original order. */
  function SortByAmount(t: seq<CategoryTotal>): (r: seq<CategoryTotal>)
    ensures |r| == |t|
  {
    if t == [] then [] else Insert(SortByAmount(t[..|t| - 1]), t[|t| - 1])
  }

  /** Selects the records of one amount. */
  function AmountIs(v: real): CategoryTotal -> bool {
    (x: CategoryTotal) => x.amount == v
  }

  lemma {:induction false} InsertPermutes(t: seq<CategoryTotal>, x: CategoryTotal)
    ensures multiset(Insert(t, x)) == multiset(t) + multiset{x}
  {
    if t != [] && t[0].amount >= x.amount {
      InsertPermutes(t[1..], x);
      assert t == [t[0]] + t[1..];
    }
  }

  lemma SortedCons(y: CategoryTotal, r: seq<CategoryTotal>)
    requires SortedByAmount(r)
    requires forall z :: z in r ==> y.amount >= z.amount
    ensures SortedByAmount([y] + r)
  {
    forall i, j | 0 <= i < j < |[y] + r| ensures ([y] + r)[i].amount >= ([y] + r)[j].amount {
      assert ([y] + r)[j] == r[j - 1] && r[j - 1] in r;
      if i > 0 { assert ([y] + r)[i] == r[i - 1]; }
    }
  }

  lemma DistinctCons(y: CategoryTotal, r: seq<CategoryTotal>)
    requires DistinctCategories(r)
    requires y.category !in Categories(r)
    ensures DistinctCategories([y] + r)
  {
    forall i, j | 0 <= i < j < |[y] + r| ensures ([y] + r)[i].category != ([y] + r)[j].category {
      assert ([y] + r)[j] == r[j - 1] && r[j - 1] in r;
      if i > 0 { assert ([y] + r)[i] == r[i - 1]; }
    }
  }

  lemma CategoriesOfPermutation(a: seq<CategoryTotal>, b: seq<CategoryTotal>)
    requires multiset(a) == multiset(b)
    ensures Categories(a) == Categories(b)
  {
    forall x ensures x in a <==> x in b {
      assert x in a <==> x in multiset(a);
      assert x in b <==> x in multiset(b);
    }
  }

  lemma {:induction false} InsertSorted(t: seq<CategoryTotal>, x: CategoryTotal)
    requires SortedByAmount(t)
    ensures SortedByAmount(Insert(t, x))
  {
    if t == [] {
    } else if t[0].amount >= x.amount {
      var r := Insert(t[1..], x);
      InsertSorted(t[1..], x);
      InsertPermutes(t[1..], x);
      forall z | z in r ensures t[0].amount >= z.amount {
        assert z in multiset(r);
        if z != x {
          assert z in multiset(t[1..]);
          var k :| 0 <= k < |t[1..]| && t[1..][k] == z;
          assert t[k + 1] == z;
        }
      }
      SortedCons(t[0], r);
    } else {
      forall z | z in t ensures x.amount >= z.amount {
        var k :| 0 <= k < |t| && t[k] == z;
        assert t[0].amount >= t[k].amount || k == 0;
      }
      SortedCons(x, t);
    }
  }

  lemma {:induction false} InsertDistinct(t: seq<CategoryTotal>, x: CategoryTotal)
    requires DistinctCategories(t)
    requires x.category !in Categories(t)
    ensures DistinctCategories(Insert(t, x))
  {
    if t == [] {
    } else if t[0].amount >= x.amount {
      var r := Insert(t[1..], x);
      assert t == [t[0]] + t[1..];
      assert Categories(t[1..]) <= Categories(t);
      InsertDistinct(t[1..], x);
      InsertPermutes(t[1..], x);
      assert t[0].category !in Categories(r) by {
        forall z | z in r ensures z.category != t[0].category {
          assert z in multiset(r);
          if z != x {
            assert z in multiset(t[1..]);
            var k :| 0 <= k < |t[1..]| && t[1..][k] == z;
            assert t[k + 1] == z;
          } else {
            assert t[0] in t;
          }
        }
      }
      DistinctCons(t[0], r);
    } else {
      DistinctCons(x, t);
    }
  }

  lemma {:induction false} InsertTotal(t: seq<CategoryTotal>, x: CategoryTotal)
    ensures TotalOf(Insert(t, x)) == TotalOf(t) + x.amount
  {
    if t != [] && t[0].amount >= x.amount {
      InsertTotal(t[1..], x);
      assert ([t[0]] + Insert(t[1..], x))[1..] == Insert(t[1..], x);
    }
  }

  /** Records of equal amount keep their relative order, and `x` comes after
      those of `t` that have its amount. */
  lemma {:induction false} InsertStable(t: seq<CategoryTotal>, x: CategoryTotal, v: real)
    requires SortedByAmount(t)
    ensures Filter(Insert(t, x), AmountIs(v)) == Filter(t, AmountIs(v)) + Filter([x], AmountIs(v))
  {
    var p := AmountIs(v);
    FilterCons(x, [], p);
    if t == [] {
    } else if t[0].amount >= x.amount {
      assert t == [t[0]] + t[1..];
      InsertStable(t[1..], x, v);
      FilterCons(t[0], Insert(t[1..], x), p);
      FilterCons(t[0], t[1..], p);
    } else {
      FilterCons(x, t, p);
      if x.amount == v {
        forall z | z in t ensures !p(z) {
          var k :| 0 <= k < |t| && t[k] == z;
          assert t[0].amount >= t[k].amount || k == 0;
        }
        FilterDropsAll(t, p);
      }
    }
  }

  lemma {:induction false} SortPermutes(t: seq<CategoryTotal>)
    ensures multiset(SortByAmount(t)) == multiset(t)
  {
    if t != [] {
      var init := t[..|t| - 1];
      assert t == init + [t[|t| - 1]];
      SortPermutes(init);
      InsertPermutes(SortByAmount(init), t[|t| - 1]);
    }
  }

  lemma {:induction false} SortSorted(t: seq<CategoryTotal>)
    ensures SortedByAmount(SortByAmount(t))
  {
    if t != [] {
      SortSorted(t[..|t| - 1]);
      InsertSorted(SortByAmount(t[..|t| - 1]), t[|t| - 1]);
    }
  }

  lemma {:induction false} SortTotal(t: seq<CategoryTotal>)
    ensures TotalOf(SortByAmount(t)) == TotalOf(t)
  {
    if t != [] {
      var init := t[..|t| - 1];
      assert t == init + [t[|t| - 1]];
      SortTotal(init);
      InsertTotal(SortByAmount(init), t[|t| - 1]);
      TotalOfAppend(init, t[|t| - 1]);
    }
  }

  lemma {:induction false} SortDistinct(t: seq<CategoryTotal>)
    requires DistinctCategories(t)
    ensures DistinctCategories(SortByAmount(t))
  {
    if t != [] {
      var init, x := t[..|t| - 1], t[|t| - 1];
      assert DistinctCategories(init);
      SortDistinct(init);
      SortPermutes(init);
      CategoriesOfPermutation(SortByAmount(init), init);
      assert x.category !in Categories(init) by {
        forall z | z in init ensures z.category != x.category {
          var k :| 0 <= k < |init| && init[k] == z;
          assert t[k] == z;
        }
      }
      InsertDistinct(SortByAmount(init), x);
    }
  }

  /** Stability: for every amount, the records with that amount come out in
      the order they went in. */
  lemma {:induction false} SortStable(t: seq<CategoryTotal>, v: real)
    ensures Filter(SortByAmount(t), AmountIs(v)) == Filter(t, AmountIs(v))
  {
    if t != [] {
      var init, x := t[..|t| - 1], t[|t| - 1];
      assert t == init + [x];
      SortStable(init, v);
      SortSorted(init);
      InsertStable(SortByAmount(init), x, v);
      FilterConcat(init, [x], AmountIs(v));
    }
  }

  /** Records of equal amount are in the order their categories first occur
      in `es`. */
  ghost predicate TiesInFirstSeenOrder(r: seq<CategoryTotal>, es: seq<Expense>) {
    forall i, j :: 0 <= i < j < |r| && r[i].amount == r[j].amount ==>
      FirstIndex(es, r[i].category) < FirstIndex(es, r[j].category)
  }

  lemma TiesCons(y: CategoryTotal, r: seq<CategoryTotal>, es: seq<Expense>)
    requires TiesInFirstSeenOrder(r, es)
    requires forall z :: z in r && z.amount == y.amount ==> FirstIndex(es, y.category) < FirstIndex(es, z.category)
    ensures TiesInFirstSeenOrder([y] + r, es)
  {
    var u := [y] + r;
    forall i, j | 0 <= i < j < |u| && u[i].amount == u[j].amount
      ensures FirstIndex(es, u[i].category) < FirstIndex(es, u[j].category)
    {
      assert u[j] == r[j - 1] && r[j - 1] in r;
      if i > 0 { assert u[i] == r[i - 1]; }
    }
  }

  /** Inserting adds `x` and nothing else. */
  lemma InsertMembers(t: seq<CategoryTotal>, x: CategoryTotal)
    ensures forall z :: z in Insert(t, x) ==> z == x || z in t
  {
    InsertPermutes(t, x);
    forall z | z in Insert(t, x) ensures z == x || z in t {
      assert z in multiset(Insert(t, x));
    }
  }

  /** The tail of a sorted sequence with ordered ties is both. */
  lemma TiesTail(t: seq<CategoryTotal>, es: seq<Expense>)
    requires t != []
    requires SortedByAmount(t) && TiesInFirstSeenOrder(t, es)
    ensures SortedByAmount(t[1..]) && TiesInFirstSeenOrder(t[1..], es)
  {
    assert forall i :: 0 <= i < |t[1..]| ==> t[1..][i] == t[i + 1];
  }

  /** Inserting a record whose category occurs later than all of `t`'s puts it
      after the records of its amount. */
  lemma {:induction false} InsertTies(t: seq<CategoryTotal>, x: CategoryTotal, es: seq<Expense>)
    requires SortedByAmount(t)
    requires TiesInFirstSeenOrder(t, es)
    requires forall z :: z in t ==> FirstIndex(es, z.category) < FirstIndex(es, x.category)
    ensures TiesInFirstSeenOrder(Insert(t, x), es)
  {
    if t == [] {
    } else if t[0].amount >= x.amount {
      var r := Insert(t[1..], x);
      assert forall z :: z in t[1..] ==> z in t;
      TiesTail(t, es);
      InsertTies(t[1..], x, es);
      InsertMembers(t[1..], x);
      forall z | z in r && z.amount == t[0].amount
        ensures FirstIndex(es, t[0].category) < FirstIndex(es, z.category)
      {
        if z != x {
          var k :| 0 <= k < |t[1..]| && t[1..][k] == z;
          assert t[k + 1] == z;
        } else {
          assert t[0] in t;
        }
      }
      TiesCons(t[0], r, es);
    } else {
      forall z | z in t ensures z.amount < x.amount {
        var k :| 0 <= k < |t| && t[k] == z;
        assert t[0].amount >= t[k].amount || k == 0;
      }
      TiesCons(x, t, es);
    }
  }

  /** Sorting records listed in order of first occurrence leaves the records
      of each amount in that order. */
  lemma {:induction false} SortTies(t: seq<CategoryTotal>, es: seq<Expense>)
    requires FirstSeenOrder(t, es)
    ensures TiesInFirstSeenOrder(SortByAmount(t), es)
  {
    if t != [] {
      var init, x := t[..|t| - 1], t[|t| - 1];
      assert FirstSeenOrder(init, es) by {
        forall i, j | 0 <= i < j < |init| ensures init[i] == t[i] && init[j] == t[j] { }
      }
      SortTies(init, es);
      SortSorted(init);
      SortPermutes(init);
      forall z | z in SortByAmount(init) ensures FirstIndex(es, z.category) < FirstIndex(es, x.category) {
        assert z in multiset(init);
        var k :| 0 <= k < |init| && init[k] == z;
        assert t[k] == z;
      }
      InsertTies(SortByAmount(init), x, es);
    }
  }

  /** What `getCategoryTotals` returns for the expenses `es`: one record per
      category, none twice, each with its category's sum, together adding up
      to the sum of `es`, largest first, and records of equal amount in the
      order the grouping produced them, which is the order in which their
      categories first occur in `es`. */
  lemma CategoryTotalsCorrect(es: seq<Expense>)
    ensures var r := SortByAmount(Tally(es));
      && DistinctCategories(r)
      && Categories(r) == ExpenseCategories(es)
      && (forall x :: x in r ==> x.amount == CategorySum(es, x.category))
      && TotalOf(r) == Sum(es)
      && SortedByAmount(r)
      && (forall v :: Filter(r, AmountIs(v)) == Filter(Tally(es), AmountIs(v)))
      && TiesInFirstSeenOrder(r, es)
  {
    var t := Tally(es);
    var r := SortByAmount(t);
    TallyCorrect(es);
    SortTies(t, es);
    SortDistinct(t);
    SortPermutes(t);
    CategoriesOfPermutation(r, t);
    forall x | x in r ensures x.amount == CategorySum(es, x.category) {
      assert x in multiset(r);
      var k :| 0 <= k < |t| && t[k] == x;
    }
    SortTotal(t);
    SortSorted(t);
    forall v ensures Filter(r, AmountIs(v)) == Filter(t, AmountIs(v)) {
      SortStable(t, v);
    }
  }

  /** `Object.entries(totals).map(([category, amount]) => ({category, amount}))`. */
  function Entries(keys: seq<string>, totals: map<string, real>): (r: seq<CategoryTotal>)
    requires forall k :: k in keys ==> k in totals
    ensures |r| == |keys|
  {
    seq(|keys|, i requires 0 <= i < |keys| => CategoryTotal(keys[i], totals[keys[i]]))
  }

  /** One more expense is one more step of the fold. */
  lemma TallyStep(s: seq<Expense>, i: nat)
    requires i < |s|
    ensures Tally(s[..i + 1]) == AddTo(Tally(s[..i]), s[i])
  {
    assert s[..i + 1][..i] == s[..i];
  }

  /** The dictionary's keys in insertion order, with no key twice. */
  ghost predicate KeysOf(keys: seq<string>, totals: map<string, real>) {
    && (forall k :: k in keys <==> k in totals)
    && forall a, b :: 0 <= a < b < |keys| ==> keys[a] != keys[b]
  }

  /** Setting the value of the key at position `j` sets that entry. */
  lemma EntriesSet(keys: seq<string>, totals: map<string, real>, j: nat, v: real)
    requires KeysOf(keys, totals)
    requires j < |keys|
    ensures Entries(keys, totals[keys[j] := v]) == Entries(keys, totals)[j := CategoryTotal(keys[j], v)]
  {
    var t, c := Entries(keys, totals), keys[j];
    var t' := Entries(keys, totals[c := v]);
    forall k | 0 <= k < |t| ensures t'[k] == t[j := CategoryTotal(c, v)][k] {
      if k != j {
        assert keys[k] != c;
      }
    }
  }

  /** Adding to a key already present updates its record in place. */
  lemma EntriesUpdate(keys: seq<string>, totals: map<string, real>, e: Expense)
    requires KeysOf(keys, totals)
    requires e.category in totals
    ensures KeysOf(keys, totals[e.category := totals[e.category] + e.amount])
    ensures Entries(keys, totals[e.category := totals[e.category] + e.amount])
            == AddTo(Entries(keys, totals), e)
  {
    var t, c := Entries(keys, totals), e.category;
    var j :| 0 <= j < |keys| && keys[j] == c;
    assert t[j].category == c;
    assert Find(t, c) == j;
    EntriesSet(keys, totals, j, totals[c] + e.amount);
  }

  /** Adding to a new key appends its record. */
  lemma EntriesAppend(keys: seq<string>, totals: map<string, real>, e: Expense)
    requires KeysOf(keys, totals)
    requires e.category !in totals
    ensures KeysOf(keys + [e.category], totals[e.category := 0.0 + e.amount])
    ensures Entries(keys + [e.category], totals[e.category := 0.0 + e.amount])
            == AddTo(Entries(keys, totals), e)
  {
    var t, c := Entries(keys, totals), e.category;
    var keys' := keys + [c];
    forall a, b | 0 <= a < b < |keys'| ensures keys'[a] != keys'[b] {
      if b == |keys| { assert keys'[a] == keys[a]; }
    }
    assert forall k :: 0 <= k < |t| ==> t[k].category != c;
    assert Find(t, c) == |t|;
  }

  /** The `forEach` of `getCategoryTotals`: a dictionary from category to
      running total, whose keys are kept in the order they were first set. */
  method TallyLoop(es: seq<Expense>) returns (t: seq<CategoryTotal>)
    ensures t == Tally(es)
  {
    var totals: map<string, real> := map[];
    var keys: seq<string> := [];
    var i := 0;
    while i < |es|
      invariant 0 <= i <= |es|
      invariant KeysOf(keys, totals)
      invariant Entries(keys, totals) == Tally(es[..i])
    {
      var e := es[i];
      TallyStep(es, i);
      var c := e.category;
      if c in totals {
        EntriesUpdate(keys, totals, e);
        totals := totals[c := totals[c] + e.amount];
      } else {
        EntriesAppend(keys, totals, e);
        keys := keys + [c];
        totals := totals[c := 0.0 + e.amount];
      }
      i := i + 1;
    }
    assert es[..i] == es;
    t := Entries(keys, totals);
  }

  /** `getCategoryTotals`: this month's totals per category, largest first. */
  method GetCategoryTotals(d: BudgetData, month: string) returns (r: seq<CategoryTotal>)
    ensures r == SortByAmount(Tally(CurrentMonthExpenses(d, month)))
    ensures DistinctCategories(r)
    ensures Categories(r) == ExpenseCategories(CurrentMonthExpenses(d, month))
    ensures forall x :: x in r ==> x.amount == CategorySum(CurrentMonthExpenses(d, month), x.category)
    ensures TotalOf(r) == TotalSpent(d, month)
    ensures SortedByAmount(r)
    ensures forall v :: Filter(r, AmountIs(v)) == Filter(Tally(CurrentMonthExpenses(d, month)), AmountIs(v))
    ensures TiesInFirstSeenOrder(r, CurrentMonthExpenses(d, month))
  {
    var current := CurrentMonthExpenses(d, month);
    var t := TallyLoop(current);
    r := SortByAmount(t);
    CategoryTotalsCorrect(current);
  }
}
