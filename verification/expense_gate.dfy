/** The expense form: a description that is not blank and a positive
    amount, or nothing is recorded. */
module ExpenseGate {
  import opened Wrappers
  import opened Types
  import Text
  import Ledger

  /** What is handed to the ledger: the trimmed description and the amount. */
  datatype Payload = Payload(description: string, amount: Money)

  /** `amount` is what `parseFloat` gave for the amount field; None stands
      for NaN. */
  function Submit(description: string, amount: Option<Money>): (r: Option<Payload>)
    ensures r.Some? <==> Text.Trim(description) != [] && amount.Some? && amount.value > 0
    ensures r.Some? ==> r.value.description == Text.Trim(description) && Some(r.value.amount) == amount
  {
    if Text.Trim(description) != [] && amount.Some? && amount.value > 0 then
      Some(Payload(Text.Trim(description), amount.value))
    else None
  }

  /** Every expense recorded through the form is well formed: a positive
      amount, no cogs and no lines. */
  lemma SubmittedExpenseWellFormed(shop: Ledger.State, description: string, amount: Option<Money>, f: Fresh)
    requires Submit(description, amount).Some?
    ensures var p := Submit(description, amount).value;
            WellFormed(Ledger.NewExpense(shop, p.description, p.amount, f).log[0])
  {
  }
}
