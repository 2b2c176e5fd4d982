/** The admin expenses page: the add/edit dialog and its submit, deletion after a
    confirmation, the total, the per-category totals and the highest category. */
module Expenses {
  import opened Base
  import opened Text
  import opened Tally
  import opened DataContext

  /** The amount field: typed text, or the number copied in from the expense being
      edited (the form holds whichever the code put there). */
  datatype FormAmount = Typed(text: string) | Prefilled(amount: int)

  datatype ExpenseForm = ExpenseForm(category: string, date: string, amount: FormAmount, mode: string,
                                     description: string)

  /** `!formData.amount`: the empty text, or a copied-in 0. */
  predicate AmountMissing(a: FormAmount)
  {
    match a
    case Typed(t) => t == ""
    case Prefilled(n) => n == 0
  }

  /** `parseFloat(formData.amount)`; None stands for NaN. */
  function ParsedAmount(a: FormAmount): Option<int>
  {
    match a
    case Typed(t) => ParseAmount(t)
    case Prefilled(n) => Some(n)
  }

  /** The blank form: no category, today's date, no amount, mode 'Cash'. */
  function BlankForm(today: string): ExpenseForm
  {
    ExpenseForm("", today, Typed(""), "Cash", "")
  }

  /** The form filled from an expense being edited. */
  function FormOf(e: Expense): (f: ExpenseForm)
    ensures f.amount == Prefilled(e.fields.amount)
    ensures f.category == e.fields.category && f.date == e.fields.date
    ensures f.mode == e.fields.mode && f.description == e.fields.description
  {
    ExpenseForm(e.fields.category, e.fields.date, Prefilled(e.fields.amount), e.fields.mode, e.fields.description)
  }

  datatype SubmitOutcome = MissingFields | UnreadableAmount | Added(expense: Expense) | Edited(id: int)

  function ExpenseAmount(e: Expense): int
  {
    e.fields.amount
  }

  function ExpenseCategory(e: Expense): string
  {
    e.fields.category
  }

  /** `totalExpenses` */
  function TotalExpenses(es: seq<Expense>): int
  {
    Sum(es, ExpenseAmount)
  }

  /** `expensesByCategory`, in the order the categories first occur. */
  function ByCategory(es: seq<Expense>): Dict<string>
  {
    SumsBy(es, ExpenseCategory, ExpenseAmount)
  }

  /** The per-category totals: one entry per category that occurs, each the sum of
      that category's amounts, together the overall total. */
  lemma ByCategoryFacts(es: seq<Expense>, c: string)
    ensures DistinctKeys(ByCategory(es))
    ensures Total(ByCategory(es)) == TotalExpenses(es)
    ensures c in KeysOf(ByCategory(es)) <==> exists i :: 0 <= i < |es| && es[i].fields.category == c
    ensures Get(ByCategory(es), c) == Sum(Filter(es, KeyIs(ExpenseCategory, c)), ExpenseAmount)
  {
    SumsByTotal(es, ExpenseCategory, ExpenseAmount);
    SumsByKeys(es, ExpenseCategory, ExpenseAmount, c);
    SumsByGet(es, ExpenseCategory, ExpenseAmount, c);
  }

  /** The highest-category card: the first category with the largest total, or 'N/A'. */
  function HighestCategory(es: seq<Expense>): (r: string)
    ensures es == [] ==> r == "N/A"
    ensures es != [] ==>
              exists i :: 0 <= i < |ByCategory(es)| && ByCategory(es)[i].0 == r
                          && (forall j :: 0 <= j < |ByCategory(es)| ==> ByCategory(es)[j].1 <= ByCategory(es)[i].1)
                          && (forall j :: 0 <= j < i ==> ByCategory(es)[j].1 < ByCategory(es)[i].1)
  {
    var d := ByCategory(es);
    SumsByKeys(es, ExpenseCategory, ExpenseAmount, if es == [] then "" else es[0].fields.category);
    match HighestKey(d)
    case None => "N/A"
    case Some(c) => c
  }

  class ExpensesPage {
    var showModal: bool
    var editingId: Option<int>
    var formData: ExpenseForm

    constructor (today: string)
      ensures !showModal && editingId.None? && formData == BlankForm(today)
    {
      showModal, editingId, formData := false, None, BlankForm(today);
    }

    /** `handleOpenModal`: prefilled for an expense, blank for a new one. */
    method OpenModal(expense: Option<Expense>, today: string)
      modifies this
      ensures showModal
      ensures expense.Some? ==> editingId == Some(expense.value.id) && formData == FormOf(expense.value)
      ensures expense.None? ==> editingId.None? && formData == BlankForm(today)
    {
      if expense.Some? {
        editingId := Some(expense.value.id);
        formData := FormOf(expense.value);
      } else {
        editingId := None;
        formData := BlankForm(today);
      }
      showModal := true;
    }

    /** `handleSubmit`. Without a category or an amount nothing changes. Otherwise the
        expense being edited (a truthy editingId) is updated, or else a new one is
        added, never both, and the dialog closes on a blank form. An amount that is
        not a number would be stored as NaN; here it is reported and nothing is
        stored. */
    method HandleSubmit(store: DataStore, today: string, now: int, timestamp: string, logId: int)
      returns (outcome: SubmitOutcome)
      modifies this`showModal, this`formData, store`expenses, store`activityLogs
      ensures old(formData.category) == "" || AmountMissing(old(formData.amount)) <==> outcome == MissingFields
      ensures outcome == MissingFields ==>
        showModal == old(showModal) && formData == old(formData)
        && store.expenses == old(store.expenses) && store.activityLogs == old(store.activityLogs)
      ensures outcome != MissingFields ==> !showModal && formData == BlankForm(today)
      ensures outcome == UnreadableAmount <==>
        outcome != MissingFields && ParsedAmount(old(formData.amount)).None?
      ensures outcome == UnreadableAmount ==>
        store.expenses == old(store.expenses) && store.activityLogs == old(store.activityLogs)
      ensures outcome.Edited? <==>
        outcome != MissingFields && outcome != UnreadableAmount && editingId.Some? && editingId.value != 0
      ensures outcome.Edited? ==>
        var f := old(formData);
        outcome.id == editingId.value
        && store.expenses == EditExpenses(old(store.expenses), editingId.value,
             ExpenseFields(f.category, f.date, ParsedAmount(f.amount).value, f.mode, f.description))
        && store.activityLogs == old(store.activityLogs) +
             [AdminLog(logId, ExpenseUpdated(f.category, ParsedAmount(f.amount).value), timestamp)]
      ensures outcome.Added? ==>
        var f := old(formData);
        outcome.expense == Expense(now, ExpenseFields(f.category, f.date, ParsedAmount(f.amount).value, f.mode,
                                                      f.description), timestamp)
        && store.expenses == old(store.expenses) + [outcome.expense]
        && store.activityLogs == old(store.activityLogs) +
             [AdminLog(logId, ExpenseRecorded(f.category, ParsedAmount(f.amount).value), timestamp)]
    {
      if formData.category == "" || AmountMissing(formData.amount) {
        return MissingFields;
      }
      var parsed := ParsedAmount(formData.amount);
      if parsed.None? {
        outcome := UnreadableAmount;
      } else {
        var fields := ExpenseFields(formData.category, formData.date, parsed.value, formData.mode,
                                    formData.description);
        if editingId.Some? && editingId.value != 0 {
          store.EditExpense(editingId.value, fields, logId, timestamp);
          outcome := Edited(editingId.value);
        } else {
          var e := store.AddExpense(fields, now, timestamp, logId);
          outcome := Added(e);
        }
      }
      showModal := false;
      formData := BlankForm(today);
    }

    /** `handleDelete`: only after the confirmation. */
    method HandleDelete(store: DataStore, id: int, confirmed: bool, logId: int, timestamp: string)
      modifies store`expenses, store`activityLogs
      ensures confirmed ==> store.expenses == Filter(old(store.expenses), ExpenseIsNot(id))
      ensures confirmed ==> forall e :: e in store.expenses <==> e in old(store.expenses) && e.id != id
      ensures confirmed ==> store.activityLogs == old(store.activityLogs) + [AdminLog(logId, ExpenseDeleted, timestamp)]
      ensures !confirmed ==> store.expenses == old(store.expenses) && store.activityLogs == old(store.activityLogs)
    {
      if confirmed {
        store.DeleteExpense(id, logId, timestamp);
      }
    }
  }
}
