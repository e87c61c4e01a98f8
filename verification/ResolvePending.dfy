/**
 * internal/application/resolve_pending_references.go: the second writer. Its own copy of the reversal logic is
 * proved to compute the same `Engine.Reverse` as the direct path.
 */
module ResolvePending {
  import opened Prelude
  import opened Int64
  import opened MoneyDomain
  import opened WalletDomain
  import opened WagerDomain
  import opened Store
  import opened Engine
  import Ledger = LedgerDomain

  /** The attempt reached the tables of `spec`, or failed with its error. */
  ghost predicate Reached(db: Database, r: Outcome<Error>, spec: Written)
    reads db
  {
    match spec
    case Err(e) => r == Fail(e)
    case Ok(done) => r == Pass && db.world == done.0 && db.Valid()
  }

  class ResolvePendingReferences {
    const db: Database
    const policy: RetryPolicy

    constructor (db: Database, policy: RetryPolicy)
      ensures this.db == db && this.policy == policy
    {
      this.db, this.policy := db, policy;
    }

    /** The due rows are read outside any transaction; each attempt then works on that snapshot. */
    method RunOnce(now: Time, limit: nat, commits: Id -> CommitResult)
      returns (resolved: nat, rescheduled: nat, error: Option<Error>, ghost due: seq<Tx>)
      requires db.Valid()
      modifies db
      ensures db.Valid()
      ensures |due| <= limit
      ensures forall i :: 0 <= i < |due| ==>
                            due[i].ident.id in old(db.world).txs && Due(old(db.world).txs[due[i].ident.id], now)
                            && due[i] == old(db.world).txs[due[i].ident.id].tx
      ensures forall i, j :: 0 <= i < j < |due| ==> due[i].ident.id != due[j].ident.id
      ensures |due| < limit ==>
                forall id :: id in old(db.world).txs && Due(old(db.world).txs[id], now) ==>
                               old(db.world).txs[id].tx in due
      ensures Poll(old(db.world), policy, due, now, commits) == Polled(db.world, resolved, rescheduled, error)
    {
      hide Engine.Attempt;
      var list := db.ListPendingReferenceDue(now, limit);
      due := list;
      resolved, rescheduled, error := 0, 0, None;
      var i := 0;
      while i < |list|
        invariant 0 <= i <= |list| && db.Valid() && error == None
        invariant var rest := Poll(db.world, policy, list[i..], now, commits);
                  Poll(old(db.world), policy, list, now, commits)
                  == Polled(rest.world, resolved + rest.resolved, rescheduled + rest.rescheduled, rest.error)
      {
        var tx := new Transaction(list[i]);
        assert list[i..][1..] == list[i + 1..];
        var r := Attempt(tx, now, commits(list[i].ident.id));
        if r.Err? {
          error := Some(r.error);
          return;
        }
        if r.value {
          resolved := resolved + 1;
        } else {
          rescheduled := rescheduled + 1;
        }
        i := i + 1;
      }
    }

    method Attempt(tx: Transaction, now: Time, commit: CommitResult) returns (r: Result<bool, Error>)
      requires db.Valid() && !IsTerminal(tx.status)
      modifies db, tx
      ensures db.Valid()
      ensures match Engine.Attempt(old(db.world), policy, old(tx.Value()), now)
              case Err(e) => r == Err(e) && db.world == old(db.world)
              case Ok(done) => && r == (if commit.Confirmed? then Ok(done.1) else Err(CommitFailed))
                               && db.world == if commit.Took() then done.0 else old(db.world)
    {
      var before := db.world;
      r := WithinTx(tx, now);
      if r.Err? || commit.Undone? {
        db.world := before;
      }
      if r.Ok? && !commit.Confirmed? {
        r := Err(CommitFailed);
      }
    }

    method WithinTx(tx: Transaction, now: Time) returns (r: Result<bool, Error>)
      requires db.Valid() && !IsTerminal(tx.status)
      modifies db, tx
      ensures match Engine.Attempt(old(db.world), policy, old(tx.Value()), now)
              case Err(e) => r == Err(e)
              case Ok(done) => r == Ok(done.1) && db.world == done.0 && db.Valid()
    {
      hide Engine.Reverse, Engine.RescheduleOrExpire;
      var found := db.FindByProviderAndExternalID(tx.ident.providerID, tx.ident.reference);
      if found.None? {
        r := RescheduleOrExpire(tx, now);
        return;
      }
      :- ResolveAgainst(tx, found.value, now);
      return Ok(true);
    }

    method RescheduleOrExpire(tx: Transaction, now: Time) returns (r: Result<bool, Error>)
      requires db.Valid() && !IsTerminal(tx.status)
      modifies db, tx
      ensures match Engine.RescheduleOrExpire(old(db.world), policy, old(tx.Value()), now)
              case Err(e) => r == Err(e)
              case Ok(done) => r == Ok(done.1) && db.world == done.0 && db.Valid()
    {
      var elapsed := now - tx.ident.createdAt;
      if elapsed >= policy.maxAge {
        :- RejectPending(tx, ReferenceNotFound, now);
        return Ok(true);
      }
      db.RecordPendingReferenceAttempt(tx.ident.id, 1, now + policy.baseBackoff);
      return Ok(false);
    }

    method ResolveAgainst(tx: Transaction, ref: Tx, now: Time) returns (r: Outcome<Error>)
      requires db.Valid() && !IsTerminal(tx.status)
      requires ref.ident.id in db.world.txs && ref == db.world.txs[ref.ident.id].tx
      modifies db, tx
      ensures Reached(db, r, Reverse(old(db.world), old(tx.Value()), ref.ident.id, now))
    {
      hide Settle, Refuse;
      var code := ReferenceFault(tx.ident, ref);
      if code != NoCode {
        r := RejectPending(tx, code, now);
        return;
      }
      var refunds := CountReversals(db.world.txs, ref.ident.id, Refund);
      var rollbacks := CountReversals(db.world.txs, ref.ident.id, Rollback);
      if refunds + rollbacks > 0 {
        r := RejectPending(tx, DuplicateReversal, now);
        return;
      }
      r := MoveBack(tx, ref, now);
    }

    method MoveBack(tx: Transaction, ref: Tx, now: Time) returns (r: Outcome<Error>)
      requires db.Valid() && !IsTerminal(tx.status) && ref.ident.id != NIL
      modifies db, tx
      ensures Reached(db, r, Settle(old(db.world), old(tx.Value()), Some(ref.ident.id),
                                    ReversalDirection(ref.ident.kind), ReversalExceedsBalance, now))
    {
      hide Book, Finish, Refuse;
      var found := db.FindWallet(tx.ident.walletID);
      if found.Err? {
        return Fail(found.error);
      }
      var w := found.value;
      var expected := w.version;
      var direction := ReversalDirection(ref.ident.kind);
      var movement;
      if direction == Ledger.Credit {
        movement := w.Credit(tx.ident.money, now);
      } else {
        movement := w.Debit(tx.ident.money, now);
      }
      if movement == Err(InsufficientBalance) {
        r := RejectPending(tx, ReversalExceedsBalance, now);
        return;
      }
      if movement.Err? {
        return Fail(movement.error);
      }
      var m := movement.value;
      r := BookMovement(tx, w, expected, m, direction, now);
      if r == Pass {
        var attached := tx.AttachResolvedReference(ref.ident.id);
        assert attached == Pass;
        r := SaveAndAnnounce(tx, w, m, direction, now);
      }
    }

    method BookMovement(tx: Transaction, w: Wallet, expected: int64, m: Movement, direction: Ledger.Direction,
                        now: Time)
      returns (r: Outcome<Error>)
      requires db.Valid()
      modifies db
      ensures db.Valid() && match Book(old(db.world), tx.ident, old(w.Value()), expected, m, direction, now)
                            case Err(e) => r == Fail(e)
                            case Ok(after) => r == Pass && db.world == after
    {
      hide Ledger.New;
      var id := db.NewID();
      var entry := Ledger.New(id, w.id, tx.ident.id, direction, tx.ident.money, m.before, m.after, now);
      if entry.Err? {
        return Fail(entry.error);
      }
      r := db.AppendEntry(entry.value);
      if r == Pass {
        r := db.SaveWallet(w, expected);
      }
    }

    method SaveAndAnnounce(tx: Transaction, w: Wallet, m: Movement, direction: Ledger.Direction, now: Time)
      returns (r: Outcome<Error>)
      requires db.Valid() && !IsTerminal(tx.status)
      modifies db, tx
      ensures match Finish(old(db.world), old(tx.Value()), m.after, now)
              case Err(e) => r == Fail(e)
              case Ok(done) => r == Pass && db.Valid()
                               && db.world == AppendEvent(done.0, MovementEvent(tx.ident, w.id, direction, m), now)
    {
      var marked := tx.MarkProcessed(m.after, now);
      assert marked == Pass;
      r := db.SaveTx(tx);
      if r == Pass {
        db.Publish(ProcessedEvent(tx.ident, tx.resulting, now), now);
        db.Publish(BalanceChanged(w.id, tx.ident.id, direction, tx.ident.money, m.before, m.after, m.version), now);
      }
    }

    method RejectPending(tx: Transaction, code: FailureCode, now: Time) returns (r: Outcome<Error>)
      requires db.Valid() && !IsTerminal(tx.status) && code != NoCode
      modifies db, tx
      ensures Reached(db, r, Refuse(old(db.world), old(tx.Value()), code, now))
    {
      var marked := tx.MarkRejected(code, now);
      assert marked == Pass;
      r := db.SaveTx(tx);
      if r == Pass {
        db.Publish(RejectedEvent(tx.ident, tx.failure, now), now);
      }
    }
  }
}
