/** The transaction records both dashboard components read. */
module Transactions {

  /** The record's `type` field. */
  datatype Kind = Receita | Despesa

  /** One transaction as the dashboard receives it: `value` is the stored
      magnitude, `date` is the `dd/mm/yyyy` text, `effectiveValue` is carried
      along and read by neither component. */
  datatype Transaction = Transaction(
    id: int,
    transaction: string,
    value: int,
    kind: Kind,
    category: string,
    date: string,
    effectiveValue: int)

  /** The sum of `value` over the records of kind `k`. */
  function KindTotal(data: seq<Transaction>, k: Kind): int
  {
    if data == [] then 0
    else KindTotal(data[..|data| - 1], k) + (if data[|data| - 1].kind == k then data[|data| - 1].value else 0)
  }
}
