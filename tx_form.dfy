/** The "add transaction" form shared by the dashboard and the transactions page. */
module TransactionForm {
  import opened Wrappers
  import opened Records

  /** The form's fields; `amount == None` is an empty amount input. */
  datatype TxForm = TxForm(budgetMonth: string, category: string, amount: Option<int>, paidThrough: string, note: string)

  /** The form after a reset: every field empty, paid through M-PESA. */
  const EmptyForm := TxForm("", "", None, "MPESA", "")

  /** Budget month, category and amount are required (an amount of 0 is accepted). */
  predicate Complete(f: TxForm) {
    f.budgetMonth != "" && f.category != "" && f.amount.Some?
  }

  /** `{...form, amount: Number(form.amount), date}`: the form's fields, the parsed
      amount and the creation date; the fields the form does not have stay empty. */
  function ToTransaction(f: TxForm, id: string, date: string): (t: Transaction)
    requires Complete(f)
    ensures t.id == id && t.date == date && t.amount == f.amount.value
    ensures t.budgetMonth == f.budgetMonth && t.category == f.category
    ensures t.paidThrough == f.paidThrough && t.note == f.note
    ensures !t.adjusted && t.dateOfTransaction == "" && t.source == "" && t.relatedTransactionId == ""
  {
    Transaction(id, f.budgetMonth, f.category, f.amount.value, f.paidThrough, f.note, date, "", "", "", "", "", false, "")
  }

  /** The form fields a transaction carries. */
  function FormOf(t: Transaction): TxForm {
    TxForm(t.budgetMonth, t.category, Some(t.amount), t.paidThrough, t.note)
  }

  /** Nothing the user typed is lost: the written transaction gives the form back. */
  lemma FormRoundTrip(f: TxForm, id: string, date: string)
    requires Complete(f)
    ensures FormOf(ToTransaction(f, id, date)) == f
    ensures Complete(FormOf(ToTransaction(f, id, date)))
  {
  }

  /** A reset form cannot be submitted. */
  lemma EmptyFormIncomplete()
    ensures !Complete(EmptyForm) && EmptyForm.paidThrough == "MPESA"
  {
  }
}
