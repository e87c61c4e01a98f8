/** What a reader of the transactions table may rely on while a run goes on. */
module StatusSafety {
  import opened Prelude
  import opened Int64
  import opened MoneyDomain
  import opened WalletDomain
  import opened WagerDomain
  import opened Store
  import opened Engine
  import opened Runs
  import opened References
  import opened Idempotency
  import opened Browsing
  import opened Decisions
  import Ledger = LedgerDomain

  /** What every committed row is: processed, rejected with a code, or parked and not on itself. */
  predicate Committed(t: Tx) {
    match t.status
    case Processed => t.failure == NoCode && t.resulting.Some?
    case Rejected => t.failure != NoCode && t.resulting == None && t.resolved == None
    case PendingReference => RequiresReference(t.ident.kind) && t.ident.reference != t.ident.externalID
                             && t.failure == NoCode && t.resulting == None && t.resolved == None
    case Pending => false
    case Failed => false
  }

  /** How a committed row may evolve: its identity never changes, and nothing changes once it is terminal. */
  predicate Evolves(before: Tx, after: Tx) {
    before.ident == after.ident && (before == after || before.status.PendingReference?)
  }

  ghost predicate HasEntry(ledger: seq<Ledger.Entry>, id: Id) {
    exists i :: 0 <= i < |ledger| && ledger[i].transactionID == id
  }

  /**
   * At every point of a run each row is well committed, it has a ledger entry exactly when it moved money, and from
   * there to any later point it only evolves: a parked row may end, an ended one stays as it is.
   */
  lemma RowsAreSafe(policy: RetryPolicy, steps: seq<Step>, n: nat, id: Id)
    requires n <= |steps| && id in Run(policy, steps[..n]).txs
    ensures var then_, now := Run(policy, steps[..n]), Run(policy, steps);
            && Committed(then_.txs[id].tx)
            && (HasEntry(then_.ledger, id) <==> MovedMoney(then_.txs[id].tx))
            && id in now.txs && Evolves(then_.txs[id].tx, now.txs[id].tx)
  {
    hide Run, Matched, ReversedOnce, UniqueKeys;
    RunIsSound(policy, steps[..n]);
    RunIsConsistent(policy, steps[..n]);
    RunKeepsRows(policy, steps, n);
    assert RowSound(Run(policy, steps[..n]).txs[id].tx);
  }

  // ---- outdated snapshots ----

  /** The attempt finds nothing to decide yet: the reference is missing and the row is still young enough to wait. */
  ghost predicate Waits(w: World, policy: RetryPolicy, p: Ident, now: Time) {
    FindExternal(w.txs, p.providerID, p.reference).None? && now - p.createdAt < policy.maxAge
  }

  /** What a verdict writes is terminal and dated now, whatever was stored. */
  lemma VerdictIsWritten(w: World, t: Tx, target: Id, now: Time)
    requires target in w.txs && t.ident.id in w.txs && Reverse(w, t, target, now).Ok?
    ensures var w' := Reverse(w, t, target, now).value.0;
            && t.ident.id in w'.txs && IsTerminal(w'.txs[t.ident.id].tx.status)
            && w'.txs[t.ident.id].tx.updatedAt == now
  {
    hide Ledger.New, ReferenceFault, CountReversals, DebitOf, CreditOf;
  }

  /**
   * All of this needs the resolver to work on the stored row. An attempt on the parked snapshot of a row that has
   * ended in the meantime leaves that row alone exactly when the attempt still waits; every other attempt writes a
   * verdict of its own over it.
   */
  lemma StaleAttemptRespectsExactly(w: World, policy: RetryPolicy, id: Id, snapshot: Tx, now: Time)
    requires Sound(w) && id in w.txs && IsTerminal(w.txs[id].tx.status)
    requires snapshot == ParkedTx(FreshTx(w.txs[id].tx.ident), snapshot.updatedAt)
    requires Attempt(w, policy, snapshot, now).Ok?
    ensures var w' := Attempt(w, policy, snapshot, now).value.0;
            var waits := Waits(w, policy, w.txs[id].tx.ident, now);
            && id in w'.txs
            && (waits ==> w'.txs[id].tx == w.txs[id].tx)
            && (!waits ==> IsTerminal(w'.txs[id].tx.status) && w'.txs[id].tx.updatedAt == now)
            && (w.txs[id].tx.updatedAt != now ==> (w'.txs[id].tx == w.txs[id].tx <==> waits))
  {
    hide UniqueKeys, RowSound, Reverse;
    var p := w.txs[id].tx.ident;
    assert p.id == id;
    match FindExternal(w.txs, p.providerID, p.reference)
    case None =>
    case Some(target) => VerdictIsWritten(w, snapshot, target, now);
  }

  /**
   * A processed reversal undone on paper: a second resolver still holding its parked snapshot counts that very
   * reversal against it, and overwrites the processed row with a rejection while its movement stays in the ledger.
   */
  lemma StaleSnapshotOverwrites(w: World, policy: RetryPolicy, id: Id, snapshot: Tx, target: Id, now: Time)
    requires Sound(w) && Matched(w.txs) && id in w.txs && Reverses(w.txs[id].tx, target)
    requires snapshot == ParkedTx(FreshTx(w.txs[id].tx.ident), snapshot.updatedAt)
    ensures var r := Attempt(w, policy, snapshot, now);
            && r.Ok? && r.value.1 && r.value.0.ledger == w.ledger && r.value.0.wallets == w.wallets
            && r.value.0.next == w.next + 1
            && r.value.0.txs == w.txs[id := w.txs[id].(tx := RejectedTx(snapshot, DuplicateReversal, now))]
            && !Evolves(w.txs[id].tx, RejectedTx(snapshot, DuplicateReversal, now))
  {
    hide RowSound;
    var p := w.txs[id].tx.ident;
    assert IsReversal(w.txs[id].tx) && Meets(w.txs, p, target);
    SoundLookup(w, p.providerID, p.reference, target);
    hide UniqueKeys;
    NoReversals(w.txs, target);
  }

  /** The reversal has a good, unreversed target, and the wallet can take the movement and cover it. */
  ghost predicate CanReverse(w: World, p: Ident, target: Id) {
    && target in w.txs && HasExternal(w.txs[target].tx, p.providerID, p.reference)
    && ReferenceFault(p, w.txs[target].tx) == NoCode && Unreversed(w.txs, target)
    && (var direction := ReversalDirection(w.txs[target].tx.ident.kind);
        && Movable(w, direction, p.walletID, p.money)
        && (direction.Debit? ==> w.wallets[p.walletID].balance.minorUnits >= p.money.minorUnits))
  }

  /**
   * A rejected reversal brought back to life: one resolver rejects it, its reference arrives, and a second resolver
   * still holding the parked snapshot processes it, clears its code and books its movement.
   */
  lemma StaleSnapshotRevives(w: World, policy: RetryPolicy, id: Id, snapshot: Tx, target: Id, now: Time)
    requires Orderly(w) && Consistent(w) && id in w.txs && w.txs[id].tx.status.Rejected?
    requires RequiresReference(w.txs[id].tx.ident.kind) && CanReverse(w, w.txs[id].tx.ident, target)
    requires snapshot == ParkedTx(FreshTx(w.txs[id].tx.ident), snapshot.updatedAt)
    ensures var r := Attempt(w, policy, snapshot, now);
            && r.Ok? && id in r.value.0.txs
            && r.value.0.txs[id].tx.status.Processed? && r.value.0.txs[id].tx.failure == NoCode
            && r.value.0.txs[id].tx.resolved == Some(target)
            && (exists e: Ledger.Entry :: e.transactionID == id && r.value.0.ledger == w.ledger + [e])
            && !Evolves(w.txs[id].tx, r.value.0.txs[id].tx)
  {
    hide Matched, ReversedOnce, Numbered, RowSound, UniqueKeys;
    var p := w.txs[id].tx.ident;
    var direction := ReversalDirection(w.txs[target].tx.ident.kind);
    SoundLookup(w, p.providerID, p.reference, target);
    NoReversals(w.txs, target);
    UnprocessedHasNoEntry(w, id);
    ReversalIsNamed(w, id);
    SettleRevives(w, snapshot, target, direction, now);
    hide Settle, Unreversed, CountReversals, Movable;
    assert Attempt(w, policy, snapshot, now) == Resolved(Settle(w, snapshot, Some(target), direction,
                                                                ReversalExceedsBalance, now));
  }

  lemma UnprocessedHasNoEntry(w: World, id: Id)
    requires Consistent(w) && id in w.txs && !w.txs[id].tx.status.Processed?
    ensures forall i :: 0 <= i < |w.ledger| ==> w.ledger[i].transactionID != id
  {
    hide Matched, ReversedOnce;
    forall i | 0 <= i < |w.ledger|
      ensures w.ledger[i].transactionID != id
    {
      assert Books(w.txs, w.ledger[i]);
    }
  }

  lemma ReversalIsNamed(w: World, id: Id)
    requires Sound(w) && id in w.txs && RequiresReference(w.txs[id].tx.ident.kind)
    ensures var p := w.txs[id].tx.ident;
            p.id == id && p.id != NIL && p.walletID != NIL && p.money.minorUnits > 0 && p.walletID in w.wallets
  {
    hide UniqueKeys;
    assert RowSound(w.txs[id].tx);
  }

  lemma SettleRevives(w: World, t: Tx, target: Id, direction: Ledger.Direction, now: Time)
    requires Orderly(w) && t.ident.id in w.txs && w.txs[t.ident.id].tx.ident == t.ident && target in w.txs
    requires t.failure == NoCode && t.resolved.None? && Moves(t.ident.kind)
    requires t.ident.id != NIL && t.ident.walletID != NIL && t.ident.money.minorUnits > 0
    requires forall i :: 0 <= i < |w.ledger| ==> w.ledger[i].transactionID != t.ident.id
    requires Movable(w, direction, t.ident.walletID, t.ident.money)
    requires direction.Debit? ==> w.wallets[t.ident.walletID].balance.minorUnits >= t.ident.money.minorUnits
    ensures var r := Settle(w, t, Some(target), direction, ReversalExceedsBalance, now);
            && r.Ok? && t.ident.id in r.value.0.txs
            && r.value.0.txs[t.ident.id].tx.status.Processed? && r.value.0.txs[t.ident.id].tx.failure == NoCode
            && r.value.0.txs[t.ident.id].tx.resolved == Some(target)
            && exists e: Ledger.Entry :: e.transactionID == t.ident.id && r.value.0.ledger == w.ledger + [e]
  {
    hide UniqueKeys, RowSound, Commit;
    SettleSucceedsExactly(w, t, Some(target), direction, ReversalExceedsBalance, now);
    var row := w.wallets[t.ident.walletID];
    var (row', m) := MoveOf(row, direction, t.ident.money, now).value;
    var b := CommitEffect(w, Attach(t, Some(target)), row, row', m, direction, now);
    hide DebitOf, CreditOf;
    assert b.entry.transactionID == t.ident.id;
  }
}
