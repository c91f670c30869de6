/** Records shared by the pages and dialogs of the banking dashboard.

    The mock data module that fills them is not part of this model: accounts and
    transactions reach every operation as parameters. Money is held in integer
    cents, so sums are exact. */
module BankData {

  datatype Option<+T> = None | Some(value: T)

  /** A ledger date: the ISO text `YYYY-MM-DD` as stored, and the instant (in
      milliseconds) that the browser's date parser gives it. The two are kept
      side by side because the page filters on the text and sorts on the instant. */
  datatype Date = Date(iso: string, time: int)

  /** Money in cents; negative for a debit. */
  type Cents = int

  datatype Transaction = Transaction(
    id: int,
    date: Date,
    description: string,
    amount: Cents,
    status: string,
    initiatedBy: string,
    runningBalance: Cents,
    category: string,
    icon: string)

  datatype Account = Account(name: string, number: string, balance: Cents)

  /** The four accounts of the joint household, as the dashboard reads them. */
  datatype Accounts = Accounts(checking: Account, savings: Account, ira2024: Account, ira2023: Account)
}
