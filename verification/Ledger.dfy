/** internal/domain/ledger: one append-only entry per movement of a wallet. */
module LedgerDomain {
  import opened Prelude
  import opened Int64
  import opened MoneyDomain

  datatype Direction = Debit | Credit

  datatype Entry = Entry(id: Id, walletID: Id, transactionID: Id, direction: Direction,
                         money: Money, before: Money, after: Money, createdAt: Time)

  function New(id: Id, walletID: Id, transactionID: Id, direction: Direction,
               amount: Money, before: Money, after: Money, at: Time): Result<Entry, Error>
  {
    if id == NIL || walletID == NIL || transactionID == NIL then Err(InvalidEntry)
    else if amount.minorUnits <= 0 then Err(InvalidEntry)
    else
      match if direction == Debit then Subtract(before, amount) else Add(before, amount)
      case Err(e) => Err(e)
      case Ok(expected) =>
        if expected != after then Err(BalanceMismatch)
        else Ok(Entry(id, walletID, transactionID, direction, amount, before, after, at))
  }

  function SignedAmount(e: Entry): MoneyResult {
    if e.direction == Debit then Negate(e.money) else Ok(e.money)
  }

  /** The signed amount in exact arithmetic. */
  function Signed(direction: Direction, units: int): int {
    if direction == Debit then 0 - units else units
  }

  /**
   * An entry is accepted exactly when its identifiers are set, its amount is positive, its three amounts share one
   * currency and the balances differ by the signed amount; the accepted entry records its arguments unchanged.
   */
  lemma NewIsExact(id: Id, walletID: Id, transactionID: Id, direction: Direction,
                   amount: Money, before: Money, after: Money, at: Time)
    ensures New(id, walletID, transactionID, direction, amount, before, after, at).Ok?
            <==> id != NIL && walletID != NIL && transactionID != NIL && amount.minorUnits > 0
                 && amount.currency == before.currency == after.currency
                 && after.minorUnits == before.minorUnits + Signed(direction, amount.minorUnits)
    ensures var r := New(id, walletID, transactionID, direction, amount, before, after, at);
            r.Ok? ==> r.value == Entry(id, walletID, transactionID, direction, amount, before, after, at)
                      && SignedAmount(r.value) == Ok(Money(after.minorUnits - before.minorUnits, before.currency))
    ensures var r := New(id, walletID, transactionID, direction, amount, before, after, at);
            r.Err? ==>
              r.error == if id == NIL || walletID == NIL || transactionID == NIL then InvalidEntry
                         else if amount.minorUnits <= 0 then InvalidEntry
                         else if amount.currency != before.currency then MoneyCurrencyMismatch
                         else if !Fits(before.minorUnits + Signed(direction, amount.minorUnits)) then Overflow
                         else BalanceMismatch
  {
    AddIsExact(before, amount);
    SubtractIsExact(before, amount);
    CheckedNegateIsExact(amount.minorUnits);
  }
}
