/** internal/application/open_wallet.go: a new wallet and, when it starts with money, its opening credit. */
module OpenWalletCase {
  import opened Prelude
  import opened Int64
  import opened MoneyDomain
  import opened WalletDomain
  import opened WagerDomain
  import opened Store
  import opened Engine
  import Ledger = LedgerDomain

  class OpenWallet {
    const db: Database

    constructor (db: Database)
      ensures this.db == db
    {
      this.db := db;
    }

    method Execute(cmd: OpenCommand, commit: CommitResult) returns (r: Result<OpenResult, Error>)
      requires db.Valid()
      modifies db
      ensures db.Valid()
      ensures match Open(old(db.world), cmd)
              case Err(e) => r == Err(e) && db.world == old(db.world)
              case Ok(done) => && r == (if commit.Confirmed? then Ok(done.1) else Err(CommitFailed))
                               && db.world == if commit.Took() then done.0 else old(db.world)
    {
      var before := db.world;
      r := WithinTx(cmd);
      if r.Err? || commit.Undone? {
        db.world := before;
      }
      if r.Ok? && !commit.Confirmed? {
        r := Err(CommitFailed);
      }
    }

    method WithinTx(cmd: OpenCommand) returns (r: Result<OpenResult, Error>)
      requires db.Valid()
      modifies db
      ensures match Open(old(db.world), cmd)
              case Err(e) => r == Err(e)
              case Ok(done) => r == Ok(done.1) && db.world == done.0 && db.Valid()
    {
      hide CreditOpening;
      var walletID := db.NewID();
      var w :- Wallet.New(walletID, cmd.playerID, cmd.initialBalance, cmd.now);
      :- db.CreateWallet(w);
      if cmd.initialBalance.minorUnits > 0 {
        :- AppendOpening(walletID, cmd);
      }
      return Ok(OpenResult(w.id, w.balance, w.version));
    }

    method AppendOpening(walletID: Id, cmd: OpenCommand) returns (r: Outcome<Error>)
      requires db.Valid() && walletID != NIL && cmd.playerID != NIL && cmd.initialBalance.minorUnits > 0
      modifies db
      ensures match CreditOpening(old(db.world), walletID, cmd)
              case Err(e) => r == Fail(e)
              case Ok(after) => r == Pass && db.world == after && db.Valid()
    {
      hide OpeningEntry, OpeningEvents;
      var openingID := db.NewID();
      var opening := Transaction.NewOpening(openingID, walletID, cmd.playerID, cmd.initialBalance, cmd.now);
      if opening.Err? {
        return Fail(opening.error);
      }
      var tx := opening.value;
      r := db.CreateTx(tx);
      if r == Pass {
        r := AppendEntry(walletID, openingID, cmd);
        if r == Pass {
          AppendOpeningEvents(tx, cmd);
        }
      }
    }

    method AppendEntry(walletID: Id, openingID: Id, cmd: OpenCommand) returns (r: Outcome<Error>)
      requires db.Valid()
      modifies db
      ensures db.Valid() && match OpeningEntry(old(db.world), walletID, openingID, cmd)
                            case Err(e) => r == Fail(e)
                            case Ok(after) => r == Pass && db.world == after
    {
      var zero := Money(0, cmd.initialBalance.currency);
      var id := db.NewID();
      var entry := Ledger.New(id, walletID, openingID, Ledger.Credit, cmd.initialBalance, zero, cmd.initialBalance,
                              cmd.now);
      if entry.Err? {
        return Fail(entry.error);
      }
      r := db.AppendEntry(entry.value);
    }

    method AppendOpeningEvents(tx: Transaction, cmd: OpenCommand)
      requires db.Valid()
      modifies db
      ensures db.Valid() && db.world == OpeningEvents(old(db.world), old(tx.Value()), cmd)
    {
      var zero := Money(0, cmd.initialBalance.currency);
      db.Publish(ProcessedEvent(tx.ident, tx.resulting, cmd.now), cmd.now);
      db.Publish(BalanceChanged(tx.ident.walletID, tx.ident.id, Ledger.Credit, cmd.initialBalance, zero,
                                cmd.initialBalance, 1), cmd.now);
    }
  }
}
