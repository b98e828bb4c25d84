/** The `BudgetTracker` object: its state, the mutators behind the page's
    forms and buttons, and the confirmation modal that guards the two
    destructive ones. Each method takes as parameters what the source reads
    from the page, the clock or the file picker. The `localStorage` entry
    `budgetTrackerData` is the field `storage`, holding what `JSON.parse`
    would make of the stored text. A method that redraws the page reports
    `Fail(RenderFailed)` when the redraw throws on the selected currency:
    what it changed and saved before stays, and nothing after it runs. */
module Tracker {
  import opened Model
  import opened Seqs
  import opened Views
  import opened Store
  import opened Render

  /** The closure `showModal` keeps until the modal is answered. */
  datatype Action = ToDelete(id: int) | ToClearAll

  /** What running a pending action does to the state. `clearAllExpenses`
      reads the clock when it runs, so the month is the one at confirmation. */
  function Perform(a: Option<Action>, d: BudgetData, month: string): (r: BudgetData)
    ensures r.monthlyBudget == d.monthlyBudget && r.categories == d.categories
    ensures r.selectedCurrency == d.selectedCurrency
    ensures a == None ==> r == d
    ensures a.Some? && a.value.ToDelete? ==>
      forall e :: e in r.expenses <==> e in d.expenses && e.id != a.value.id
    ensures a == Some(ToClearAll) ==>
      forall e :: e in r.expenses <==> e in d.expenses && !InMonth(e, month)
  {
    match a
    case None => d
    case Some(ToDelete(id)) => d.(expenses := RemoveById(d.expenses, id))
    case Some(ToClearAll) => d.(expenses := RemoveMonth(d.expenses, month))
  }

  /** Confirming a pending action never makes a well-formed state ill formed,
      and confirming "clear all" leaves nothing for the month. */
  lemma PerformKeepsWellFormed(a: Option<Action>, d: BudgetData, month: string)
    requires WellFormed(d)
    ensures WellFormed(Perform(a, d, month))
    ensures a == Some(ToClearAll) ==> CurrentMonthExpenses(Perform(a, d, month), month) == []
    ensures TotalSpent(Perform(a, d, month), month) <= TotalSpent(d, month)
  {
    match a
    case None =>
    case Some(ToDelete(id)) =>
      RemoveByIdTotalSpent(d, id, month);
    case Some(ToClearAll) =>
      ClearKeepsComplement(d, month);
      WellFormedViews(d, month);
  }

  class BudgetTracker {
    var monthlyBudget: real
    var expenses: seq<Expense>
    var categories: seq<string>
    var selectedCurrency: string
    /** The `budgetTrackerData` entry, as `JSON.parse` reads it. */
    var storage: Option<ParsedJson>
    var pendingAction: Option<Action>
    /** Whether `#confirmModal` carries the `show` class. */
    var modalOpen: bool

    /** `this.data`. */
    function Data(): BudgetData
      reads this
    {
      BudgetData(monthlyBudget, expenses, categories, selectedCurrency)
    }

    /** The modal is open exactly while an action waits for an answer, and
        reloading the page would give back the state in memory. */
    ghost predicate Valid()
      reads this
    {
      (modalOpen <==> pendingAction.Some?) && Load(storage) == Data()
    }

    /** The constructor's `this.data = this.loadData()`. */
    constructor(stored: Option<ParsedJson>)
      ensures Valid()
      ensures Data() == Load(stored) && storage == stored
      ensures pendingAction == None && !modalOpen
    {
      var d := Load(stored);
      monthlyBudget, expenses, categories, selectedCurrency := d.monthlyBudget, d.expenses, d.categories, d.selectedCurrency;
      storage := stored;
      pendingAction, modalOpen := None, false;
    }

    /** `saveData`: the entry holds the serialised state. */
    method SaveData()
      modifies this`storage
      ensures storage == Some(Parsed(Export(Data())))
      ensures Load(storage) == Data()
    {
      storage := Some(Parsed(Export(Data())));
      LoadExport(Data());
    }

    /** `setBudget`: a missing, zero or negative amount is refused and changes
        nothing; otherwise the budget is replaced and saved, and then the page
        is redrawn. */
    method SetBudget(amount: Number) returns (status: Outcome)
      requires Valid()
      modifies this
      ensures Valid()
      ensures !IsValidAmount(amount) ==> status == Fail(InvalidAmount) && unchanged(this)
      ensures IsValidAmount(amount) ==>
        status == Redraw(selectedCurrency)
      ensures IsValidAmount(amount) ==> Data() == old(Data()).(monthlyBudget := amount.value)
      ensures IsValidAmount(amount) ==> storage == Some(Parsed(Export(Data())))
      ensures pendingAction == old(pendingAction) && modalOpen == old(modalOpen)
      ensures old(WellFormed(Data())) ==> WellFormed(Data())
    {
      if !IsValidAmount(amount) {
        return Fail(InvalidAmount);
      }
      monthlyBudget := amount.value;
      SaveData();
      status := Redraw(selectedCurrency);
    }

    /** `addExpense`: the amount is checked first, then that a category was
        chosen; a passing expense goes to the front of the list, stamped with
        `id` and the ISO timestamp `now`, and the result is the toast that
        `checkBudgetWarnings` then raises, unless redrawing the page threw
        first. */
    method AddExpense(amount: Number, category: string, description: string, id: int, now: string)
      returns (result: Result<BudgetWarning>)
      requires Valid()
      modifies this
      ensures Valid()
      ensures !IsValidAmount(amount) ==> result == Err(InvalidAmount) && unchanged(this)
      ensures IsValidAmount(amount) && category == "" ==> result == Err(MissingCategory) && unchanged(this)
      ensures IsValidAmount(amount) && category != "" ==>
        expenses == [Expense(id, amount.value, category, description, now)] + old(expenses)
      ensures IsValidAmount(amount) && category != "" ==> Data() == old(Data()).(expenses := expenses)
      ensures IsValidAmount(amount) && category != "" ==> storage == Some(Parsed(Export(Data())))
      ensures IsValidAmount(amount) && category != "" ==>
        TotalSpent(Data(), MonthOf(now)) == old(TotalSpent(Data(), MonthOf(now))) + amount.value
      ensures IsValidAmount(amount) && category != "" && Redraw(selectedCurrency) == Pass ==>
        result == Ok(CheckBudgetWarnings(Data(), MonthOf(now)))
      ensures IsValidAmount(amount) && category != "" && Redraw(selectedCurrency) != Pass ==>
        result == Err(RenderFailed)
      ensures pendingAction == old(pendingAction) && modalOpen == old(modalOpen)
      ensures old(WellFormed(Data())) ==> WellFormed(Data())
    {
      if !IsValidAmount(amount) {
        return Err(InvalidAmount);
      }
      if category == "" {
        return Err(MissingCategory);
      }
      var expense := Expense(id, amount.value, category, description, now);
      ghost var d := Data();
      ghost var added := d.(expenses := [expense] + d.expenses);
      PrependedState(d, expense);
      expenses := [expense] + expenses;
      assert Data() == added;
      SaveData();
      assert Valid();
      var drawn := Redraw(selectedCurrency);
      if drawn == Pass {
        result := Ok(CheckBudgetWarnings(Data(), MonthOf(now)));
      } else {
        result := Err(RenderFailed);
      }
    }

    /** `deleteExpense`: every entry with that id is removed and the rest is
        saved in its order; then the page is redrawn. */
    method DeleteExpense(id: int) returns (status: Outcome)
      requires Valid()
      modifies this
      ensures Valid()
      ensures status == Redraw(selectedCurrency)
      ensures Data() == old(Data()).(expenses := RemoveById(old(expenses), id))
      ensures forall e :: e in expenses <==> e in old(expenses) && e.id != id
      ensures storage == Some(Parsed(Export(Data())))
      ensures pendingAction == old(pendingAction) && modalOpen == old(modalOpen)
      ensures old(WellFormed(Data())) ==> WellFormed(Data())
    {
      expenses := RemoveById(expenses, id);
      SaveData();
      status := Redraw(selectedCurrency);
    }

    /** `clearAllExpenses`: the entries dated in `month`, the current one,
        are removed; the other months are kept in their order. Then the page
        is redrawn. */
    method ClearAllExpenses(month: string) returns (status: Outcome)
      requires Valid()
      modifies this
      ensures Valid()
      ensures status == Redraw(selectedCurrency)
      ensures Data() == old(Data()).(expenses := RemoveMonth(old(expenses), month))
      ensures CurrentMonthExpenses(Data(), month) == []
      ensures old(multiset(CurrentMonthExpenses(Data(), month))) + multiset(expenses) == old(multiset(expenses))
      ensures storage == Some(Parsed(Export(Data())))
      ensures pendingAction == old(pendingAction) && modalOpen == old(modalOpen)
      ensures old(WellFormed(Data())) ==> WellFormed(Data())
    {
      ghost var d := Data();
      ghost var cleared := d.(expenses := RemoveMonth(d.expenses, month));
      ClearedState(d, month);
      expenses := RemoveMonth(expenses, month);
      assert Data() == cleared;
      SaveData();
      status := Redraw(selectedCurrency);
    }

    /** `changeCurrency`: the selected code is stored as it is, then the
        currency display and the page are redrawn and the toast names the
        currency; all of these look the code up in the same table, so the
        first lookup decides. */
    method ChangeCurrency(code: string) returns (status: Outcome)
      requires Valid()
      modifies this
      ensures Valid()
      ensures status == RedrawCurrency(code)
      ensures Data() == old(Data()).(selectedCurrency := code)
      ensures storage == Some(Parsed(Export(Data())))
      ensures pendingAction == old(pendingAction) && modalOpen == old(modalOpen)
      ensures old(WellFormed(Data())) ==> WellFormed(Data())
    {
      selectedCurrency := code;
      SaveData();
      status := RedrawCurrency(selectedCurrency);
      if status == Pass {
        EntryFormats(code);
        status := Redraw(selectedCurrency);
      }
    }

    /** `exportData`: the snapshot written to the downloaded file, which,
        imported into any state, restores this one. */
    method ExportData() returns (snapshot: Patch)
      ensures snapshot == Export(Data())
      ensures forall base :: Merge(base, snapshot) == Data()
    {
      snapshot := Export(Data());
      forall base ensures Merge(base, snapshot) == Data() {
        MergeExport(base, Data());
      }
    }

    /** `importData`'s `onload`: a file that does not parse is refused and
        changes nothing; a parsed object is spread over the state and saved,
        and the page redrawn. The same `catch` reports a parse error and a
        redraw that throws, so both read "invalid file format". */
    method ImportData(input: ParsedJson) returns (status: Outcome)
      requires Valid()
      modifies this
      ensures Valid()
      ensures input == ParseError ==> status == Fail(InvalidFormat) && unchanged(this)
      ensures input.Parsed? ==> Data() == Merge(old(Data()), input.patch)
      ensures input.Parsed? ==>
        status == if Redraw(selectedCurrency) == Pass then Pass else Fail(InvalidFormat)
      ensures input.Parsed? ==> storage == Some(Parsed(Export(Data())))
      ensures pendingAction == old(pendingAction) && modalOpen == old(modalOpen)
    {
      if input == ParseError {
        return Fail(InvalidFormat);
      }
      var d := Merge(Data(), input.patch);
      monthlyBudget, expenses, categories, selectedCurrency := d.monthlyBudget, d.expenses, d.categories, d.selectedCurrency;
      SaveData();
      var drawn := Redraw(selectedCurrency);
      status := if drawn == Pass then Pass else Fail(InvalidFormat);
    }

    /** `showModal`: the modal opens holding `action`. */
    method ShowModal(action: Action)
      requires Valid()
      modifies this`pendingAction, this`modalOpen
      ensures Valid()
      ensures pendingAction == Some(action) && modalOpen
    {
      pendingAction, modalOpen := Some(action), true;
    }

    /** `hideModal`: the modal closes and forgets its action. */
    method HideModal()
      requires Valid()
      modifies this`pendingAction, this`modalOpen
      ensures Valid()
      ensures pendingAction == None && !modalOpen
    {
      pendingAction, modalOpen := None, false;
    }

    /** `executeConfirmAction`: the pending action, if any, runs in the
        month of the answer, and the modal closes. When the action's redraw
        throws, `hideModal` is never reached: the modal stays open, still
        holding the action that has already run. */
    method ExecuteConfirmAction(month: string) returns (status: Outcome)
      requires Valid()
      modifies this
      ensures Valid()
      ensures Data() == Perform(old(pendingAction), old(Data()), month)
      ensures old(pendingAction) == None ==> storage == old(storage)
      ensures old(pendingAction).Some? ==> storage == Some(Parsed(Export(Data())))
      ensures old(pendingAction) == None ==> status == Pass
      ensures old(pendingAction).Some? ==> status == Redraw(selectedCurrency)
      ensures status == Pass ==> pendingAction == None && !modalOpen
      ensures status != Pass ==> pendingAction == old(pendingAction) && modalOpen
      ensures old(WellFormed(Data())) ==> WellFormed(Data())
    {
      status := Pass;
      match pendingAction {
        case None =>
        case Some(ToDelete(id)) => status := DeleteExpense(id);
        case Some(ToClearAll) => status := ClearAllExpenses(month);
      }
      if status != Pass {
        return;
      }
      HideModal();
    }

    /** `confirmDeleteExpense`: asks before deleting an expense that exists;
        an unknown id does nothing. The question shows the amount through
        `formatCurrency`, which is evaluated before the modal opens. That one
        call throws exactly when a redraw would, so its outcome is
        `Redraw(selectedCurrency)` although nothing is redrawn. */
    method ConfirmDeleteExpense(id: int) returns (status: Outcome)
      requires Valid()
      modifies this`pendingAction, this`modalOpen
      ensures Valid()
      ensures (exists e :: e in expenses && e.id == id) ==> status == Redraw(selectedCurrency)
      ensures (exists e :: e in expenses && e.id == id) && status == Pass ==>
        pendingAction == Some(ToDelete(id)) && modalOpen
      ensures (exists e :: e in expenses && e.id == id) && status != Pass ==> unchanged(this)
      ensures (forall e :: e in expenses ==> e.id != id) ==> status == Pass && unchanged(this)
    {
      var expense := FindById(expenses, id);
      status := Pass;
      if expense.Some? {
        status := Redraw(selectedCurrency);
        if status == Pass {
          ShowModal(ToDelete(id));
        }
      }
    }

    /** `confirmClearAll`: nothing to clear in `month` is refused; otherwise
        the modal asks before clearing. */
    method ConfirmClearAll(month: string) returns (status: Outcome)
      requires Valid()
      modifies this`pendingAction, this`modalOpen
      ensures Valid()
      ensures CurrentMonthExpenses(Data(), month) == [] ==> status == Fail(NothingToClear) && unchanged(this)
      ensures CurrentMonthExpenses(Data(), month) != [] ==>
        status == Pass && pendingAction == Some(ToClearAll) && modalOpen
    {
      var current := CurrentMonthExpenses(Data(), month);
      if |current| == 0 {
        return Fail(NothingToClear);
      }
      ShowModal(ToClearAll);
      status := Pass;
    }
  }

  /** Page start-up, `new BudgetTracker()`: the state is loaded and the
      listeners attached, then the currency display and the page are drawn.
      When the stored currency has no table entry, the constructor throws
      there, after the state is loaded and the form and button listeners
      are attached. Those listeners keep serving the page with that state;
      the global `budgetTracker` is never assigned. */
  method Start(stored: Option<ParsedJson>) returns (t: BudgetTracker, status: Outcome)
    ensures fresh(t) && t.Valid()
    ensures t.Data() == Load(stored) && t.storage == stored
    ensures t.pendingAction == None && !t.modalOpen
    ensures status == RedrawCurrency(Load(stored).selectedCurrency)
  {
    t := new BudgetTracker(stored);
    status := RedrawCurrency(t.selectedCurrency);
    if status == Pass {
      EntryFormats(t.selectedCurrency);
      status := Redraw(t.selectedCurrency);
    }
  }

  /** A fresh page with a budget of 100: an expense of 45.50 for lunch goes
      to the list and raises no warning. */
  method ExampleSession() returns (t: BudgetTracker)
    ensures t.Valid() && t.monthlyBudget == 100.0
    ensures t.expenses == [Expense(1, 45.5, "Food", "Lunch", "2024-03-05T12:00:00.000Z")]
    ensures RemainingBudget(t.Data(), "2024-03") == 54.5
  {
    t := new BudgetTracker(None);
    EntryFormats("USD");
    assert Redraw("USD") == Pass;
    var status := t.SetBudget(Num(100.0));
    var month := "2024-03";
    assert TotalSpent(t.Data(), month) == 0.0;
    assert MonthOf("2024-03-05T12:00:00.000Z") == month;
    var food := t.AddExpense(Num(45.5), "Food", "Lunch", 1, "2024-03-05T12:00:00.000Z");
    assert food == Ok(NoWarning);
  }

  /** Entries the form refuses leave a fresh page as it was. */
  method ExampleRefusals() returns (t: BudgetTracker)
    ensures t.Valid() && t.Data() == DEFAULT_DATA
  {
    t := new BudgetTracker(None);
    var budget := t.SetBudget(NaN);
    assert budget == Fail(InvalidAmount);
    var refused := t.AddExpense(Num(0.0), "Food", "", 3, "2024-03-07T08:00:00.000Z");
    assert refused == Err(InvalidAmount);
    var uncategorised := t.AddExpense(Num(5.0), "", "", 4, "2024-03-07T08:00:00.000Z");
    assert uncategorised == Err(MissingCategory);
  }

  /** Spending 60 of a budget of 50 raises the "exceeded" toast; "clear all",
      once confirmed, then empties the month and closes the modal. */
  method ExampleOverspend() returns (t: BudgetTracker)
    ensures t.Valid() && t.expenses == [] && !t.modalOpen
  {
    t := new BudgetTracker(None);
    EntryFormats("USD");
    assert Redraw("USD") == Pass;
    var status := t.SetBudget(Num(50.0));
    var month := "2024-03";
    assert MonthOf("2024-03-05T12:00:00.000Z") == month;
    var rent := t.AddExpense(Num(60.0), "Housing", "", 1, "2024-03-05T12:00:00.000Z");
    assert rent == Ok(Exceeded);
    var asked := t.ConfirmClearAll(month);
    assert asked == Pass && t.modalOpen;
    ghost var rentEntry := Expense(1, 60.0, "Housing", "", "2024-03-05T12:00:00.000Z");
    assert t.expenses == [rentEntry];
    assert RemoveMonth([rentEntry], month) == [];
    var answered := t.ExecuteConfirmAction(month);
  }

  /** A saved currency of four letters has neither a table entry nor the
      form `Intl.NumberFormat` accepts: start-up throws, after loading the
      state. */
  method ExampleStartFails() returns (t: BudgetTracker)
    ensures t.Valid() && t.selectedCurrency == "EURO" && t.expenses == []
  {
    MalformedCodeFails();
    var started;
    t, started := Start(Some(Parsed(Patch(None, None, None, Some("EURO")))));
    assert started == Fail(RenderFailed);
  }

  /** With a currency that cannot be formatted every redraw throws: a
      confirmed "clear all" still empties the month and saves, but the modal
      stays open holding the action. */
  method ExampleStuckModal(t: BudgetTracker, month: string)
    requires t.Valid() && !FormatsCurrency(t.selectedCurrency)
    requires CurrentMonthExpenses(t.Data(), month) != []
    modifies t
    ensures t.Valid() && CurrentMonthExpenses(t.Data(), month) == []
    ensures t.storage == Some(Parsed(Export(t.Data())))
    ensures t.modalOpen && t.pendingAction == Some(ToClearAll)
  {
    var asked := t.ConfirmClearAll(month);
    ClearKeepsComplement(t.Data(), month);
    var answered := t.ExecuteConfirmAction(month);
    assert answered == Fail(RenderFailed);
  }
}
