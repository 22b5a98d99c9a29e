/** The add-expense form: six text fields, the category and payment-method
    chips that fill two of them, the required-field check, and what a save
    hands to the store and does to the form. */
module AddExpenseForm {
  import opened Common
  import opened Strings
  import opened Records
  import opened Storage
  import opened StorageLaws

  /** The form's state. `categoryId` holds the chosen category's id and
      `paymentMethod` the chosen method's name. */
  datatype Form = Form(
    amount: string,
    categoryId: string,
    paymentMethod: string,
    description: string,
    location: string,
    date: string)

  /** What the user is told after pressing save. */
  datatype Alert = MissingFields | Saved | SaveFailed

  datatype SaveOutcome = SaveOutcome(form: Form, disk: Disk, alert: Alert)

  /** The form as it opens: every field empty except the date, which is the
      part of the current ISO timestamp before its `T`. */
  function InitialForm(now: Clock): (f: Form)
    ensures f.amount == "" && f.categoryId == "" && f.paymentMethod == ""
    ensures f.description == "" && f.location == ""
    ensures f.date <= now.iso && 'T' !in f.date
    ensures |f.date| < |now.iso| ==> now.iso[|f.date|] == 'T'
  {
    Form("", "", "", "", "", BeforeFirst(now.iso, 'T'))
  }

  /** For a timestamp `day + "T" + time`, the form opens on `day`. */
  lemma InitialDateIsDay(now: Clock, day: string, time: string)
    requires now.iso == day + "T" + time && 'T' !in day
    ensures InitialForm(now).date == day
  {
    BeforeFirstOf(day, 'T', time);
  }

  /** Tapping a category chip records the category's id. */
  function ChooseCategory(f: Form, c: Category): (r: Form)
    ensures r.categoryId == c.id
    ensures r.(categoryId := f.categoryId) == f
  {
    f.(categoryId := c.id)
  }

  /** Tapping a payment-method chip records the method's name, not its id. */
  function ChoosePaymentMethod(f: Form, m: PaymentMethod): (r: Form)
    ensures r.paymentMethod == m.name
    ensures r.(paymentMethod := f.paymentMethod) == f
  {
    f.(paymentMethod := m.name)
  }

  /** The required-field check: amount, category, payment method and
      description must be non-empty. Nothing is trimmed and the location
      may be empty. */
  predicate CanSave(f: Form) {
    f.amount != "" && f.categoryId != "" && f.paymentMethod != "" && f.description != ""
  }

  /** The fields handed to the store: the amount parsed to a number, the
      other texts as they stand, no id. */
  function Submitted(f: Form, parseAmount: string -> real): (x: ExpenseFields)
    ensures x.id.None? && x.amount == parseAmount(f.amount)
    ensures x.categoryId == f.categoryId && x.paymentMethod == f.paymentMethod
    ensures x.description == f.description && x.location == f.location && x.date == f.date
  {
    ExpenseFields(None, parseAmount(f.amount), f.categoryId, f.paymentMethod, f.description, f.location, f.date)
  }

  /** The form after the success alert is dismissed: the date stays, the
      rest is emptied. */
  function Cleared(f: Form): (r: Form)
    ensures !CanSave(r)
    ensures r.date == f.date && r.location == ""
    ensures r.amount == "" && r.categoryId == "" && r.paymentMethod == "" && r.description == ""
  {
    Form("", "", "", "", "", f.date)
  }

  /** `handleSave`. An incomplete form makes no store call. Otherwise the
      store's `addExpense` is called: a record back clears the form (once
      the success alert is dismissed), no record leaves the form as it was.
      `parseAmount` stands for `parseFloat`. */
  function HandleSave(f: Form, disk: Disk, env: Env, now: Clock, parseAmount: string -> real): (r: SaveOutcome)
    ensures !CanSave(f) ==> r == SaveOutcome(f, disk, MissingFields)
    ensures CanSave(f) ==> r.disk == AddExpense(disk, env, now, Submitted(f, parseAmount)).disk
    ensures CanSave(f) ==> (r.alert == Saved <==> LoadData(disk, env, now).value.expenses.Some?)
    ensures r.alert == Saved ==> r.form == Cleared(f)
    ensures r.alert != Saved ==> r.form == f
  {
    if !CanSave(f) then SaveOutcome(f, disk, MissingFields)
    else
      var added := AddExpense(disk, env, now, Submitted(f, parseAmount));
      match added.value
      case Some(_) => SaveOutcome(Cleared(f), added.disk, Saved)
      case None => SaveOutcome(f, added.disk, SaveFailed)
  }

  /** A description of spaces alone passes the check. */
  lemma BlankDescriptionAccepted(f: Form)
    requires f.amount != "" && f.categoryId != "" && f.paymentMethod != ""
    ensures CanSave(f.(description := " "))
    ensures CanSave(f.(location := ""))  <==> f.description != ""
  {
  }

  /** A save from a complete form on a healthy store puts, at the head of
      the stored expenses, a record with the parsed amount, the form's
      texts, the minted id and the save's timestamp; the chosen payment
      method is stored by name. */
  lemma SaveStoresForm(f: Form, disk: Disk, env: Env, now: Clock, later: Clock, parseAmount: string -> real)
    requires CanSave(f)
    requires RoundTrips(env.codec) && Writable(disk, env)
    requires LoadData(disk, env, now).value.expenses.Some?
    ensures var r := HandleSave(f, disk, env, now, parseAmount);
            var after := LoadData(r.disk, env, later).value;
            && r.alert == Saved
            && after.expenses.Some? && |after.expenses.value| > 0
            && after.expenses.value[0] == Expense(
                 "exp_" + Decimal(now.millis), parseAmount(f.amount), f.categoryId, f.paymentMethod,
                 f.description, f.location, f.date, now.iso)
  {
    AddExpenseThenLoad(disk, env, now, later, Submitted(f, parseAmount));
  }

  /** Choosing a method from a list and saving stores that method's name. */
  lemma SavedPaymentIsName(f: Form, m: PaymentMethod, disk: Disk, env: Env, now: Clock, later: Clock, parseAmount: string -> real)
    requires CanSave(ChoosePaymentMethod(f, m))
    requires RoundTrips(env.codec) && Writable(disk, env)
    requires LoadData(disk, env, now).value.expenses.Some?
    ensures var r := HandleSave(ChoosePaymentMethod(f, m), disk, env, now, parseAmount);
            LoadData(r.disk, env, later).value.expenses.value[0].paymentMethod == m.name
  {
    SaveStoresForm(ChoosePaymentMethod(f, m), disk, env, now, later, parseAmount);
  }
}
