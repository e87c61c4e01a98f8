/**
 * internal/application/process_wager_transaction.go: the use case, statement by statement over a `Database`, proved
 * to compute `Engine.Execute`.
 */
module ProcessWager {
  import opened Prelude
  import opened Int64
  import opened MoneyDomain
  import opened WalletDomain
  import opened WagerDomain
  import opened Store
  import opened Engine
  import Ledger = LedgerDomain

  /** A step written `w`, or failed; either way the aggregate in memory is `t`. */
  ghost predicate Did(db: Database, tx: Transaction, r: Result<ProcessResult, Error>, spec: Written)
    reads db, tx
  {
    db.Valid() &&
    match spec
    case Err(e) => r == Err(e)
    case Ok(done) => db.world == done.0 && tx.Value() == done.1 && r == Ok(ResultOf(done.1, false))
  }

  class ProcessWagerTransaction {
    const db: Database

    /** Whether statements are still answered after one failed; within a Postgres transaction they are not. */
    const answers: bool

    constructor (db: Database, answers: bool)
      ensures this.db == db && this.answers == answers
    {
      this.db := db;
      this.answers := answers;
    }

    /** WithinTx: the outcome of the body decides between commit and rollback; the commit itself may fail. */
    method Execute(cmd: Command, commit: CommitResult) returns (r: Result<ProcessResult, Error>)
      requires db.Valid()
      modifies db
      ensures db.Valid()
      ensures match Engine.Execute(old(db.world), cmd)
              case Err(e) => r == Err(e) && db.world == old(db.world)
              case Ok(done) => && r == (if commit.Confirmed? then Ok(done.1) else Err(CommitFailed))
                               && db.world == if commit.Took() then done.0 else old(db.world)
    {
      var before := db.world;
      r := WithinTx(cmd);
      if r.Err? || commit.Undone? {
        db.world := before;
      }
      if r.Ok? && !commit.Confirmed? {
        r := Err(CommitFailed);
      }
    }

    method WithinTx(cmd: Command) returns (r: Result<ProcessResult, Error>)
      requires db.Valid()
      modifies db
      ensures match Engine.Execute(old(db.world), cmd)
              case Err(e) => r == Err(e)
              case Ok(done) => r == Ok(done.1) && db.world == done.0 && db.Valid()
    {
      if cmd.inbox.Some? {
        var replay :- HandleInbox(cmd);
        if replay.Some? {
          return Ok(replay.value);
        }
      }
      var result :- ProcessIdempotently(cmd);
      if cmd.inbox.Some? {
        db.MarkCompleted(cmd.inbox.value, cmd.now);
      }
      return Ok(result);
    }

    /** The replayed result when this message was completed before; none when processing must go on. */
    method HandleInbox(cmd: Command) returns (r: Result<Option<ProcessResult>, Error>)
      requires db.Valid() && cmd.inbox.Some?
      modifies db
      ensures db.Valid()
      ensures match r
              case Err(e) => Engine.Execute(old(db.world), cmd) == Err(e)
              case Ok(Some(result)) => Engine.Execute(old(db.world), cmd) == Ok((db.world, result))
              case Ok(None) => Engine.Execute(old(db.world), cmd)
                               == Complete(Process(db.world, cmd), cmd.inbox.value, cmd.now)
    {
      var k := cmd.inbox.value;
      var hash := CanonicalPayload(cmd);
      if k in db.world.inbox {
        var existing := db.world.inbox[k];
        if existing.hash != hash {
          return Err(IdempotencyKeyReused);
        }
        if existing.completedAt.Some? {
          var found := db.FindByIdempotencyKey(cmd.providerID, cmd.key);
          if found.None? {
            return Err(NotFound);
          }
          return Ok(Some(ResultOf(found.value, true)));
        }
        return Ok(None);
      }
      var inserted := db.InsertInboxRecord(k, InboxRecord(hash, cmd.now, None));
      assert inserted == Pass;
      return Ok(None);
    }

    method ProcessIdempotently(cmd: Command) returns (r: Result<ProcessResult, Error>)
      requires db.Valid()
      modifies db
      ensures match Process(old(db.world), cmd)
              case Err(e) => r == Err(e)
              case Ok(done) => r == Ok(done.1) && db.world == done.0 && db.Valid()
    {
      hide Create, Engine.CreateOrRecover, UniqueKeys, KeyedByID, CanonicalPayload;
      var byExternal := db.FindByProviderAndExternalID(cmd.providerID, cmd.externalID);
      if byExternal.Some? && byExternal.value.ident.key != cmd.key {
        return Err(ExternalTransactionKeyMismatch);
      }
      var byKey := db.FindByIdempotencyKey(cmd.providerID, cmd.key);
      if byKey.Some? {
        if byKey.value.ident.hash != Some(CanonicalPayload(cmd)) {
          return Err(IdempotencyKeyReused);
        }
        return Ok(ResultOf(byKey.value, true));
      }
      NothingToRecover(db.world, cmd, answers);
      r := CreateOrRecover(cmd);
    }

    /** What follows the lookups, which may have been overtaken by now. */
    method CreateOrRecover(cmd: Command) returns (r: Result<ProcessResult, Error>)
      requires db.Valid()
      modifies db
      ensures match Engine.CreateOrRecover(old(db.world), cmd, answers)
              case Err(e) => r == Err(e)
              case Ok(done) => r == Ok(done.1) && db.world == done.0 && db.Valid()
    {
      hide Dispatch, CanonicalPayload, UniqueKeys, KeyedByID;
      var id := db.NewID();
      var tx :- Transaction.NewExternal(IdentOf(cmd, id));
      var created := db.CreateTx(tx);
      if created == Fail(Conflict) {
        r := Recover(cmd);
        return;
      }
      :- created;
      r := DispatchByKind(tx, cmd);
    }

    /** The row that has the key after all, replayed if it is the same command. */
    method Recover(cmd: Command) returns (r: Result<ProcessResult, Error>)
      requires db.Valid()
      ensures var concurrent := FindKey(db.world.txs, cmd.providerID, cmd.key);
              r == if !answers || concurrent.None? then Err(Conflict)
                   else if db.world.txs[concurrent.value].tx.ident.hash != Some(CanonicalPayload(cmd))
                   then Err(IdempotencyKeyReused) else Ok(ResultOf(db.world.txs[concurrent.value].tx, true))
    {
      if !answers {
        return Err(Conflict);
      }
      var concurrent := db.FindByIdempotencyKey(cmd.providerID, cmd.key);
      if concurrent.None? {
        return Err(Conflict);
      }
      if concurrent.value.ident.hash != Some(CanonicalPayload(cmd)) {
        return Err(IdempotencyKeyReused);
      }
      return Ok(ResultOf(concurrent.value, true));
    }

    method DispatchByKind(tx: Transaction, cmd: Command) returns (r: Result<ProcessResult, Error>)
      requires db.Valid() && tx.Value() == FreshTx(IdentOf(cmd, tx.ident.id))
      modifies db, tx
      ensures Did(db, tx, r, Dispatch(old(db.world), old(tx.Value()), cmd.now))
    {
      hide Settle, Observe;
      match cmd.kind {
        case Bet => r := ProcessBet(tx, cmd);
        case Win => r := ProcessWin(tx, cmd);
        case Loss => r := ProcessLoss(tx, cmd);
        case Refund => r := ProcessReversal(tx, cmd);
        case Rollback => r := ProcessReversal(tx, cmd);
        case _ => r := Err(InvalidKindForOperation);
      }
    }

    method ProcessBet(tx: Transaction, cmd: Command) returns (r: Result<ProcessResult, Error>)
      requires db.Valid() && tx.Value() == FreshTx(IdentOf(cmd, tx.ident.id))
      modifies db, tx
      ensures Did(db, tx, r, Settle(old(db.world), old(tx.Value()), None, Ledger.Debit, InsufficientFunds, cmd.now))
    {
      hide Commit, Refuse;
      var w :- db.FindWallet(cmd.walletID);
      var expected := w.version;
      var movement := w.Debit(cmd.amount, cmd.now);
      if movement == Err(InsufficientBalance) {
        r := RejectAndSave(tx, cmd, InsufficientFunds);
        return;
      }
      var m :- movement;
      r := CommitMovement(tx, w, expected, m, Ledger.Debit, cmd);
    }

    method ProcessWin(tx: Transaction, cmd: Command) returns (r: Result<ProcessResult, Error>)
      requires db.Valid() && tx.Value() == FreshTx(IdentOf(cmd, tx.ident.id))
      modifies db, tx
      ensures Did(db, tx, r, Settle(old(db.world), old(tx.Value()),
                                    FindExternal(old(db.world).txs, cmd.providerID, cmd.reference),
                                    Ledger.Credit, InsufficientFunds, cmd.now))
    {
      hide Commit, Refuse;
      var w :- db.FindWallet(cmd.walletID);
      var expected := w.version;
      var m :- w.Credit(cmd.amount, cmd.now);
      if cmd.reference != "" {
        var ref := db.FindByProviderAndExternalID(cmd.providerID, cmd.reference);
        if ref.Some? {
          var ignored := tx.AttachResolvedReference(ref.value.ident.id);
        }
      }
      r := CommitMovement(tx, w, expected, m, Ledger.Credit, cmd);
    }

    method ProcessLoss(tx: Transaction, cmd: Command) returns (r: Result<ProcessResult, Error>)
      requires db.Valid() && tx.Value() == FreshTx(IdentOf(cmd, tx.ident.id))
      modifies db, tx
      ensures Did(db, tx, r, Observe(old(db.world), old(tx.Value()), cmd.now))
    {
      var w :- db.FindWallet(cmd.walletID);
      r := SaveProcessed(tx, w.balance, cmd.now);
    }

    /** The expected kind of the source is implied by the command's own kind. */
    method ProcessReversal(tx: Transaction, cmd: Command) returns (r: Result<ProcessResult, Error>)
      requires db.Valid() && tx.Value() == FreshTx(IdentOf(cmd, tx.ident.id)) && RequiresReference(cmd.kind)
      modifies db, tx
      ensures Did(db, tx, r, Dispatch(old(db.world), old(tx.Value()), cmd.now))
    {
      hide Settle, Refuse, Park;
      var found := db.FindByProviderAndExternalID(cmd.providerID, cmd.reference);
      if found.None? {
        r := ParkAndSave(tx, cmd);
        return;
      }
      var ref := found.value;
      var code := ReferenceFault(IdentOf(cmd, tx.ident.id), ref);
      if code != NoCode {
        r := RejectAndSave(tx, cmd, code);
        return;
      }
      var refunds := CountReversals(db.world.txs, ref.ident.id, Refund);
      var rollbacks := CountReversals(db.world.txs, ref.ident.id, Rollback);
      if refunds + rollbacks > 0 {
        r := RejectAndSave(tx, cmd, DuplicateReversal);
        return;
      }
      r := MoveBack(tx, ref, cmd);
    }

    method ParkAndSave(tx: Transaction, cmd: Command) returns (r: Result<ProcessResult, Error>)
      requires db.Valid() && tx.status == Pending
      modifies db, tx
      ensures Did(db, tx, r, Park(old(db.world), old(tx.Value()), cmd.now))
    {
      var marked := tx.MarkPendingReference(cmd.now);
      assert marked == Pass;
      :- db.SaveTx(tx);
      db.Publish(ParkedEvent(tx.ident), cmd.now);
      return Ok(ResultOf(tx.Value(), false));
    }

    method MoveBack(tx: Transaction, ref: Tx, cmd: Command) returns (r: Result<ProcessResult, Error>)
      requires db.Valid() && tx.Value() == FreshTx(IdentOf(cmd, tx.ident.id)) && ref.ident.id != NIL
      modifies db, tx
      ensures Did(db, tx, r, Settle(old(db.world), old(tx.Value()), Some(ref.ident.id),
                                    ReversalDirection(ref.ident.kind), ReversalExceedsBalance, cmd.now))
    {
      hide Commit, Refuse, MoveOf;
      var w :- db.FindWallet(cmd.walletID);
      var expected := w.version;
      var direction := ReversalDirection(ref.ident.kind);
      var movement := MoveWallet(w, direction, cmd.amount, cmd.now);
      if movement == Err(InsufficientBalance) {
        r := RejectAndSave(tx, cmd, ReversalExceedsBalance);
        return;
      }
      var m :- movement;
      var attached := tx.AttachResolvedReference(ref.ident.id);
      assert attached == Pass;
      r := CommitMovement(tx, w, expected, m, direction, cmd);
    }

    method MoveWallet(w: Wallet, direction: Ledger.Direction, amount: Money, now: Time)
      returns (movement: Result<Movement, Error>)
      modifies w
      ensures match MoveOf(old(w.Value()), direction, amount, now)
              case Ok(moved) => movement == Ok(moved.1) && w.Value() == moved.0
              case Err(e) => movement == Err(e)
    {
      if direction == Ledger.Credit {
        movement := w.Credit(amount, now);
      } else {
        movement := w.Debit(amount, now);
      }
    }

    method CommitMovement(tx: Transaction, w: Wallet, expected: int64, m: Movement, direction: Ledger.Direction,
                          cmd: Command)
      returns (r: Result<ProcessResult, Error>)
      requires db.Valid() && !IsTerminal(tx.status) && tx.ident.money == cmd.amount
      modifies db, tx
      ensures Did(db, tx, r, Commit(old(db.world), old(tx.Value()), old(w.Value()), expected, m, direction, cmd.now))
    {
      var booked := BookMovement(tx, w, expected, m, direction, cmd);
      :- booked;
      var result :- SaveProcessed(tx, m.after, cmd.now);
      db.Publish(BalanceChanged(w.id, tx.ident.id, direction, cmd.amount, m.before, m.after, m.version), cmd.now);
      return Ok(result);
    }

    method BookMovement(tx: Transaction, w: Wallet, expected: int64, m: Movement, direction: Ledger.Direction,
                        cmd: Command)
      returns (r: Outcome<Error>)
      requires db.Valid() && tx.ident.money == cmd.amount
      modifies db
      ensures db.Valid() && match Book(old(db.world), tx.ident, old(w.Value()), expected, m, direction, cmd.now)
                            case Err(e) => r == Fail(e)
                            case Ok(after) => r == Pass && db.world == after
    {
      hide Ledger.New;
      var id := db.NewID();
      var entry := Ledger.New(id, w.id, tx.ident.id, direction, cmd.amount, m.before, m.after, cmd.now);
      if entry.Err? {
        return Fail(entry.error);
      }
      r := db.AppendEntry(entry.value);
      if r == Pass {
        r := db.SaveWallet(w, expected);
      }
    }

    method SaveProcessed(tx: Transaction, resulting: Money, now: Time) returns (r: Result<ProcessResult, Error>)
      requires db.Valid() && !IsTerminal(tx.status)
      modifies db, tx
      ensures Did(db, tx, r, Finish(old(db.world), old(tx.Value()), resulting, now))
    {
      var marked := tx.MarkProcessed(resulting, now);
      assert marked == Pass;
      :- db.SaveTx(tx);
      db.Publish(ProcessedEvent(tx.ident, tx.resulting, now), now);
      return Ok(ResultOf(tx.Value(), false));
    }

    method RejectAndSave(tx: Transaction, cmd: Command, code: FailureCode) returns (r: Result<ProcessResult, Error>)
      requires db.Valid() && !IsTerminal(tx.status) && code != NoCode
      modifies db, tx
      ensures Did(db, tx, r, Refuse(old(db.world), old(tx.Value()), code, cmd.now))
    {
      var marked := tx.MarkRejected(code, cmd.now);
      assert marked == Pass;
      :- db.SaveTx(tx);
      db.Publish(RejectedEvent(tx.ident, tx.failure, cmd.now), cmd.now);
      return Ok(ResultOf(tx.Value(), false));
    }
  }
}
