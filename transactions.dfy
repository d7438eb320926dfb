/** The transaction record of the payment tracker and its enumerations. */
module Transactions {

  /** The closed set of payment providers. */
  datatype PaymentApp = PayPal | Venmo | CashApp | Stripe | Zelle | ApplePay

  /** The provider tab: every provider, or exactly one. */
  datatype AppFilter = All | Only(app: PaymentApp)

  /** Whether the money came in or went out. */
  datatype Direction = Sent | Received

  datatype Status = Completed | Pending | Failed

  /** One transaction. `amount` is in cents. `date` is any integer
      timestamp ordered as `Date.getTime()` orders the dates (milliseconds,
      say); the sample data uses minutes, since all of its dates fall on
      whole minutes. */
  datatype Transaction = Transaction(
    id: string,
    app: PaymentApp,
    amount: int,
    kind: Direction,
    recipient: string,
    description: string,
    date: int,
    status: Status)

  /** The predicate "happened at timestamp `d`", used to speak about the
      transactions that tie on a date. */
  function HasDate(d: int): Transaction -> bool {
    (t: Transaction) => t.date == d
  }

  function Ids(s: seq<Transaction>): (r: seq<string>)
    ensures |r| == |s|
    ensures forall i :: 0 <= i < |s| ==> r[i] == s[i].id
  {
    if s == [] then [] else [s[0].id] + Ids(s[1..])
  }
}
