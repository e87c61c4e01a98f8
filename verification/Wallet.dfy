/** internal/domain/wallet: the wallet aggregate, whose debits and credits bump its version. */
module WalletDomain {
  import opened Prelude
  import opened Int64
  import opened MoneyDomain

  /** The stored columns of a wallet, and the abstract value of a `Wallet` object. */
  datatype WalletRow = WalletRow(id: Id, playerID: Id, balance: Money, version: int64, createdAt: Time, updatedAt: Time)

  datatype Movement = Movement(before: Money, after: Money, version: int64)

  type MovementResult = Result<(WalletRow, Movement), Error>

  /** The wallet after its balance has become `after`; the version is an int64 and wraps. */
  function Settled(w: WalletRow, after: Money, at: Time): (WalletRow, Movement) {
    var version := Wrap(w.version + 1);
    (w.(balance := after, version := version, updatedAt := at), Movement(w.balance, after, version))
  }

  /** What a debit does, in exact arithmetic. */
  function DebitOf(w: WalletRow, amount: Money, at: Time): MovementResult {
    var after := w.balance.minorUnits as int - amount.minorUnits;
    if amount.currency != w.balance.currency then Err(WalletCurrencyMismatch)
    else if amount.minorUnits <= 0 then Err(NonPositiveAmount)
    else if !Fits(after) then Err(Overflow)
    else if after < 0 then Err(InsufficientBalance)
    else Ok(Settled(w, Money(after, w.balance.currency), at))
  }

  /** What a credit does, in exact arithmetic. */
  function CreditOf(w: WalletRow, amount: Money, at: Time): MovementResult {
    var after := w.balance.minorUnits as int + amount.minorUnits;
    if amount.currency != w.balance.currency then Err(WalletCurrencyMismatch)
    else if amount.minorUnits <= 0 then Err(NonPositiveAmount)
    else if !Fits(after) then Err(Overflow)
    else Ok(Settled(w, Money(after, w.balance.currency), at))
  }

  class Wallet {
    const id: Id
    const playerID: Id
    const createdAt: Time
    var balance: Money
    var version: int64
    var updatedAt: Time

    ghost function Value(): WalletRow
      reads this
    {
      WalletRow(id, playerID, balance, version, createdAt, updatedAt)
    }

    /** Rehydrates a stored row. */
    constructor (row: WalletRow)
      ensures Value() == row
    {
      id, playerID, balance, version := row.id, row.playerID, row.balance, row.version;
      createdAt, updatedAt := row.createdAt, row.updatedAt;
    }

    static method New(id: Id, playerID: Id, initialBalance: Money, at: Time) returns (r: Result<Wallet, Error>)
      ensures r.Ok? <==> id != NIL && playerID != NIL && initialBalance.minorUnits >= 0
      ensures r.Ok? ==> fresh(r.value) && r.value.Value() == WalletRow(id, playerID, initialBalance, 1, at, at)
      ensures r.Err? ==> r.error == InvalidWallet
    {
      if id == NIL || playerID == NIL || initialBalance.minorUnits < 0 {
        return Err(InvalidWallet);
      }
      var w := new Wallet(WalletRow(id, playerID, initialBalance, 1, at, at));
      return Ok(w);
    }

    method Debit(amount: Money, at: Time) returns (r: Result<Movement, Error>)
      modifies this
      ensures var before, after := old(balance), old(balance).minorUnits as int - amount.minorUnits;
              r == if amount.currency != before.currency then Err(WalletCurrencyMismatch)
                   else if amount.minorUnits <= 0 then Err(NonPositiveAmount)
                   else if after < MIN then Err(Overflow)
                   else if after < 0 then Err(InsufficientBalance)
                   else Ok(Movement(before, Money(after, before.currency), Wrap(old(version) + 1)))
      ensures match r
              case Ok(m) => Value() == old(Value()).(balance := m.after, version := m.version, updatedAt := at)
              case Err(_) => Value() == old(Value())
    {
      if amount.currency != balance.currency {
        return Err(WalletCurrencyMismatch);
      }
      if amount.minorUnits <= 0 {
        return Err(NonPositiveAmount);
      }
      SubtractIsExact(balance, amount);
      var before := balance;
      var after :- Subtract(balance, amount);
      if after.minorUnits < 0 {
        return Err(InsufficientBalance);
      }
      balance := after;
      version := Wrap(version + 1);
      updatedAt := at;
      return Ok(Movement(before, after, version));
    }

    method Credit(amount: Money, at: Time) returns (r: Result<Movement, Error>)
      modifies this
      ensures var before, after := old(balance), old(balance).minorUnits as int + amount.minorUnits;
              r == if amount.currency != before.currency then Err(WalletCurrencyMismatch)
                   else if amount.minorUnits <= 0 then Err(NonPositiveAmount)
                   else if after > MAX then Err(Overflow)
                   else Ok(Movement(before, Money(after, before.currency), Wrap(old(version) + 1)))
      ensures match r
              case Ok(m) => Value() == old(Value()).(balance := m.after, version := m.version, updatedAt := at)
              case Err(_) => Value() == old(Value())
    {
      if amount.currency != balance.currency {
        return Err(WalletCurrencyMismatch);
      }
      if amount.minorUnits <= 0 {
        return Err(NonPositiveAmount);
      }
      AddIsExact(balance, amount);
      var before := balance;
      var after :- Add(balance, amount);
      balance := after;
      version := Wrap(version + 1);
      updatedAt := at;
      return Ok(Movement(before, after, version));
    }

    /** CanDebit predicts exactly whether Debit would succeed. */
    predicate CanDebit(amount: Money)
      reads this
      ensures CanDebit(amount) <==> amount.currency == balance.currency && 0 < amount.minorUnits <= balance.minorUnits
      ensures CanDebit(amount) <==> DebitOf(Value(), amount, 0).Ok?
    {
      SubtractIsExact(balance, amount);
      amount.currency == balance.currency && amount.minorUnits > 0 &&
      match Subtract(balance, amount)
      case Err(_) => false
      case Ok(after) => after.minorUnits >= 0
    }
  }
}
