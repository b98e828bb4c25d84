/** The tracker's persisted state (`this.data`), the shapes it is read from
    and written to, and the shallow merges that `loadData` and `importData`
    perform on it. */
module Model {

  datatype Option<T> = None | Some(value: T)

  /** What `parseFloat` yields for a form field: not a number, or a number. */
  datatype Number = NaN | Num(value: real)

  /** One recorded expense. `date` is the ISO-8601 timestamp of its creation. */
  datatype Expense = Expense(id: int, amount: real, category: string, description: string, date: string)

  /** The four fields of `this.data`. */
  datatype BudgetData = BudgetData(
    monthlyBudget: real,
    expenses: seq<Expense>,
    categories: seq<string>,
    selectedCurrency: string)

  const DEFAULT_CATEGORIES: seq<string> :=
    ["Food", "Transportation", "Housing", "Utilities", "Entertainment", "Healthcare", "Shopping", "Other"]

  /** The state used when nothing usable is stored. */
  const DEFAULT_DATA: BudgetData := BudgetData(0.0, [], DEFAULT_CATEGORIES, "USD")

  /** A parsed JSON object of the state's shape, any of whose fields may be
      missing; spreading it (`{...base, ...patch}`) overwrites exactly the
      fields it has. */
  datatype Patch = Patch(
    monthlyBudget: Option<real>,
    expenses: Option<seq<Expense>>,
    categories: Option<seq<string>>,
    selectedCurrency: Option<string>)

  const EMPTY_PATCH: Patch := Patch(None, None, None, None)

  /** The outcome of `JSON.parse` on a stored or imported text. */
  datatype ParsedJson = ParseError | Parsed(patch: Patch)

  /** Why an operation was refused, or, for `RenderFailed`, why it stopped
      part-way: its change was made and saved, then redrawing the page threw,
      so nothing after the redraw ran. */
  datatype Error = InvalidAmount | MissingCategory | InvalidFormat | NothingToClear | RenderFailed

  datatype Outcome = Pass | Fail(error: Error)

  datatype Result<T> = Ok(value: T) | Err(error: Error)

  /** An amount the forms accept: exactly the values for which the guard
      `isNaN(amount) || amount <= 0` is false. */
  function IsValidAmount(n: Number): (ok: bool)
    ensures ok <==> !(n.NaN? || n.value <= 0.0)
  {
    n.Num? && n.value > 0.0
  }

  /** `{...base, ...p}`: each field present in `p` replaces the one in `base`.
      Seen as JSON objects, spreading onto the state is spreading onto its
      serialised form. */
  function Merge(base: BudgetData, p: Patch): (r: BudgetData)
    ensures Export(r) == Combine(Export(base), p)
  {
    BudgetData(
      if p.monthlyBudget.Some? then p.monthlyBudget.value else base.monthlyBudget,
      if p.expenses.Some? then p.expenses.value else base.expenses,
      if p.categories.Some? then p.categories.value else base.categories,
      if p.selectedCurrency.Some? then p.selectedCurrency.value else base.selectedCurrency)
  }

  /** `{...p, ...q}` on two parsed objects. */
  function Combine(p: Patch, q: Patch): Patch {
    Patch(
      if q.monthlyBudget.Some? then q.monthlyBudget else p.monthlyBudget,
      if q.expenses.Some? then q.expenses else p.expenses,
      if q.categories.Some? then q.categories else p.categories,
      if q.selectedCurrency.Some? then q.selectedCurrency else p.selectedCurrency)
  }

  /** `JSON.stringify(this.data)`, read back: an object with every field. */
  function Export(d: BudgetData): (p: Patch)
    ensures p.monthlyBudget.Some? && p.expenses.Some? && p.categories.Some? && p.selectedCurrency.Some?
  {
    Patch(Some(d.monthlyBudget), Some(d.expenses), Some(d.categories), Some(d.selectedCurrency))
  }

  /** `loadData`: nothing stored, or a text that does not parse, gives the
      defaults; a parsed object is merged over the defaults. */
  function Load(stored: Option<ParsedJson>): (d: BudgetData)
    ensures stored == None || stored == Some(ParseError) ==> d == DEFAULT_DATA
  {
    match stored
    case None => DEFAULT_DATA
    case Some(ParseError) => DEFAULT_DATA
    case Some(Parsed(p)) => Merge(DEFAULT_DATA, p)
  }

  /** A stored object is spread over the defaults: seen as saved JSON, each
      field it carries replaces the default one. */
  lemma LoadParsed(p: Patch)
    ensures Export(Load(Some(Parsed(p)))) == Combine(Export(DEFAULT_DATA), p)
  {
  }

  /** An object with no fields changes nothing. */
  lemma MergeEmpty(d: BudgetData)
    ensures Merge(d, EMPTY_PATCH) == d
  {
  }

  /** Importing an exported snapshot yields that snapshot, whatever the state
      it is imported into: `{...any, ...export(d)} == d`. */
  lemma MergeExport(base: BudgetData, d: BudgetData)
    ensures Merge(base, Export(d)) == d
  {
  }

  /** Reloading what was saved gives back the saved state. */
  lemma LoadExport(d: BudgetData)
    ensures Load(Some(Parsed(Export(d)))) == d
  {
  }

  /** Two successive merges are one merge of the combined object. */
  lemma MergeCombine(d: BudgetData, p: Patch, q: Patch)
    ensures Merge(Merge(d, p), q) == Merge(d, Combine(p, q))
  {
  }

  /** Importing the same object twice is importing it once. */
  lemma MergeIdempotent(d: BudgetData, p: Patch)
    ensures Merge(Merge(d, p), p) == Merge(d, p)
  {
  }

  /** What the tracker's own operations keep true: a non-negative budget and
      expenses with positive amounts and a chosen category. Stored or imported
      data need not satisfy it. */
  ghost predicate WellFormed(d: BudgetData) {
    d.monthlyBudget >= 0.0 && forall e :: e in d.expenses ==> e.amount > 0.0 && e.category != ""
  }

  /** A merge of well-formed parts is well formed. */
  lemma MergeWellFormed(d: BudgetData, p: Patch)
    requires WellFormed(d)
    requires p.monthlyBudget.Some? ==> p.monthlyBudget.value >= 0.0
    requires p.expenses.Some? ==> forall e :: e in p.expenses.value ==> e.amount > 0.0 && e.category != ""
    ensures WellFormed(Merge(d, p))
  {
  }
}
