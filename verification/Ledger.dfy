/** Kinds of transaction. */
module Ledger {
  import opened Wrappers

  /** The `type` field of a transaction: `"income" | "expense"`. */
  datatype Kind = Income | Expense
  {
    function Name(): string
    {
      match this
      case Income => "income"
      case Expense => "expense"
    }
  }

  /** The kind a `type` string names, if any. */
  function KindNamed(s: string): (r: Option<Kind>)
    ensures r.Some? <==> s == "income" || s == "expense"
    ensures r.Some? ==> r.value.Name() == s
  {
    if s == "income" then Some(Income) else if s == "expense" then Some(Expense) else None
  }
}
