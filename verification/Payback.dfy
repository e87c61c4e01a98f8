/**
 * At most one reversal per transaction, stated on the ledger: no two entries belong to reversals that name the same
 * reference. Entries are never rewritten, so this sees a second payment even where the row of the first one was
 * overwritten.
 */
module Payback {
  import opened Prelude
  import opened Int64
  import opened MoneyDomain
  import opened WalletDomain
  import opened WagerDomain
  import opened Store
  import opened Engine
  import opened Runs
  import opened References
  import opened Balances
  import opened Idempotency
  import opened Agreement
  import opened Decisions
  import opened StatusSafety
  import opened Interleaving
  import Ledger = LedgerDomain

  // ---- the promise ----

  /** A reversal of what the provider calls `reference`. */
  predicate Against(p: Ident, provider: string, reference: string) {
    RequiresReference(p.kind) && p.providerID == provider && p.reference == reference
  }

  /** The ledger has a movement for a reversal of this reference. */
  ghost predicate PaidBack(w: World, provider: string, reference: string) {
    exists i :: 0 <= i < |w.ledger| && PaysBack(w.txs, w.ledger[i], provider, reference)
  }

  predicate PaysBack(txs: map<Id, TxRow>, e: Ledger.Entry, provider: string, reference: string) {
    e.transactionID in txs && Against(txs[e.transactionID].tx.ident, provider, reference)
  }

  /** Both entries belong to reversals, and these name the same reference. */
  predicate SameReference(txs: map<Id, TxRow>, a: Ledger.Entry, b: Ledger.Entry) {
    && a.transactionID in txs && RequiresReference(txs[a.transactionID].tx.ident.kind)
    && var p := txs[a.transactionID].tx.ident; PaysBack(txs, b, p.providerID, p.reference)
  }

  /** At most one movement per reference was booked to reverse it. */
  ghost predicate PaidBackOnce(w: World) {
    forall i, j :: 0 <= i < j < |w.ledger| ==> !SameReference(w.txs, w.ledger[i], w.ledger[j])
  }

  // ---- entries belong to rows ----

  predicate Files(txs: map<Id, TxRow>, e: Ledger.Entry) {
    e.transactionID in txs && e.walletID == txs[e.transactionID].tx.ident.walletID
  }

  /** Every entry belongs to a row of its wallet, and every processed reversal has an entry. */
  ghost predicate Filed(w: World) {
    && (forall i :: 0 <= i < |w.ledger| ==> Files(w.txs, w.ledger[i]))
    && (forall id :: id in w.txs && IsReversal(w.txs[id].tx) ==> HasEntry(w.ledger, id))
  }

  lemma EntriesStay(w: World, w': World)
    requires Filed(w) && Extends(w.txs, w'.txs) && w.ledger <= w'.ledger
    ensures forall i :: 0 <= i < |w.ledger| ==> Files(w'.txs, w'.ledger[i])
    ensures forall id :: HasEntry(w.ledger, id) ==> HasEntry(w'.ledger, id)
  {
    forall i | 0 <= i < |w.ledger|
      ensures Files(w'.txs, w'.ledger[i])
    {
      assert Files(w.txs, w.ledger[i]) && w'.ledger[i] == w.ledger[i];
    }
    forall id | HasEntry(w.ledger, id)
      ensures HasEntry(w'.ledger, id)
    {
      var i :| 0 <= i < |w.ledger| && w.ledger[i].transactionID == id;
      assert w'.ledger[i] == w.ledger[i];
    }
  }

  /** Rows that are processed reversals now were so before, or have just been booked. */
  lemma FiledKept(w: World, w': World, c: Change)
    requires Sound(w) && Filed(w) && Rewrites(w, w', c)
    ensures Filed(w') && w.ledger <= w'.ledger
  {
    hide Sound, Filed, Files, HasEntry, Moved, Notes, Rewritable;
    RewriteExtends(w, w', c);
    hide Extends;
    match c
    case Booked(b) => BookedIsFiled(w, w', b);
    case Credited(row, t, e) => CreditedIsFiled(w, w', c);
    case Noted(t) => NotedIsFiled(w, w', t);
    case _ => UntouchedIsFiled(w, w');
  }

  lemma UntouchedIsFiled(w: World, w': World)
    requires Filed(w) && Extends(w.txs, w'.txs) && w'.ledger == w.ledger && w'.txs.Keys == w.txs.Keys
    requires forall id :: id in w.txs ==> w'.txs[id].tx == w.txs[id].tx
    ensures Filed(w')
  {
    hide HasEntry;
    EntriesStay(w, w');
  }

  lemma NotedIsFiled(w: World, w': World, t: Tx)
    requires Filed(w) && Extends(w.txs, w'.txs) && Notes(w, w', t)
    ensures Filed(w') && w'.ledger == w.ledger
  {
    hide AnnouncedNote, Told, HasEntry, Extends;
    EntriesStay(w, w');
    NoteIsNoReversal(t);
  }

  lemma BookedIsFiled(w: World, w': World, b: Booking)
    requires Sound(w) && Filed(w) && Extends(w.txs, w'.txs) && Moved(w, w', b)
    ensures Filed(w') && w.ledger <= w'.ledger
  {
    hide UniqueKeys, RowSound, AnnouncedMove, Told, HasEntry, Extends;
    EntriesStay(w, w');
    NewEntryIsFiled(w', b.entry);
  }

  lemma CreditedIsFiled(w: World, w': World, c: Change)
    requires Filed(w) && Extends(w.txs, w'.txs) && c.Credited? && Rewrites(w, w', c)
    ensures Filed(w') && w.ledger <= w'.ledger
  {
    hide AnnouncedMove, Told, HasEntry, Extends, Unowned;
    EntriesStay(w, w');
    NewEntryIsFiled(w', c.entry);
  }

  lemma NewEntryIsFiled(w: World, e: Ledger.Entry)
    requires e in w.ledger
    ensures HasEntry(w.ledger, e.transactionID)
  {
  }

  lemma NoteIsNoReversal(t: Tx)
    requires Unmoved(t)
    ensures !IsReversal(t)
  {
  }

  // ---- one change ----

  /** With a new entry the promise is kept exactly when it was, and the entry repays nothing repaid before. */
  lemma OnceWithEntry(w: World, w': World, e: Ledger.Entry)
    requires Filed(w) && Extends(w.txs, w'.txs) && w'.ledger == w.ledger + [e] && e.transactionID in w'.txs
    ensures var p := w'.txs[e.transactionID].tx.ident;
            PaidBackOnce(w') <==> PaidBackOnce(w) && (RequiresReference(p.kind) ==>
                                                        !PaidBack(w, p.providerID, p.reference))
  {
    var n, p := |w.ledger|, w'.txs[e.transactionID].tx.ident;
    forall i | 0 <= i < n
      ensures Files(w.txs, w.ledger[i]) && w'.ledger[i] == w.ledger[i]
      ensures SameReference(w'.txs, w'.ledger[i], e)
              <==> RequiresReference(p.kind) && PaysBack(w.txs, w.ledger[i], p.providerID, p.reference)
    {
    }
    forall i, j | 0 <= i < j < n
      ensures SameReference(w'.txs, w'.ledger[i], w'.ledger[j]) <==> SameReference(w.txs, w.ledger[i], w.ledger[j])
    {
    }
    hide Files, SameReference, PaysBack;
    if PaidBackOnce(w') {
      assert forall i :: 0 <= i < n ==> !SameReference(w'.txs, w'.ledger[i], w'.ledger[n]);
    }
  }

  /** Without a new entry it is kept exactly when it was, and nothing more counts as repaid. */
  lemma OnceUnmoved(w: World, w': World)
    requires Filed(w) && Extends(w.txs, w'.txs) && w'.ledger == w.ledger
    ensures PaidBackOnce(w') <==> PaidBackOnce(w)
    ensures forall provider, reference :: PaidBack(w', provider, reference) <==> PaidBack(w, provider, reference)
  {
    forall i | 0 <= i < |w.ledger|
      ensures Files(w.txs, w.ledger[i])
      ensures w'.txs[w.ledger[i].transactionID].tx.ident == w.txs[w.ledger[i].transactionID].tx.ident
    {
    }
    forall provider, reference
      ensures PaidBack(w', provider, reference) <==> PaidBack(w, provider, reference)
    {
      forall i | 0 <= i < |w.ledger|
        ensures PaysBack(w'.txs, w.ledger[i], provider, reference)
           <==> PaysBack(w.txs, w.ledger[i], provider, reference)
      {
      }
    }
  }

  /** A commit on the row of `p` keeps the promise exactly when it did not move money or `p` repays nothing anew. */
  lemma EffectPaysOnce(w: World, w': World, p: Ident)
    requires Sound(w) && Filed(w) && Rewritable(w, p) && Effected(w, w', p)
    ensures PaidBackOnce(w') <==> PaidBackOnce(w) && (w'.ledger != w.ledger && RequiresReference(p.kind) ==>
                                                        !PaidBack(w, p.providerID, p.reference))
  {
    hide Sound, Filed, PaidBackOnce, PaidBack, Rewritable, Notes, Moved, Extends;
    if t: Tx :| t.ident == p && Notes(w, w', t) {
      assert Rewrites(w, w', Noted(t));
      RewriteExtends(w, w', Noted(t));
      NoteKeepsLedger(w, w', t);
      OnceUnmoved(w, w');
    } else {
      var b: Booking :| b.tx.ident == p && Moved(w, w', b);
      assert Rewrites(w, w', Booked(b));
      RewriteExtends(w, w', Booked(b));
      BookingAppends(w, w', b);
      OnceWithEntry(w, w', b.entry);
    }
  }

  lemma NoteKeepsLedger(w: World, w': World, t: Tx)
    requires Notes(w, w', t)
    ensures w'.ledger == w.ledger
  {
  }

  lemma BookingAppends(w: World, w': World, b: Booking)
    requires Moved(w, w', b)
    ensures w'.ledger == w.ledger + [b.entry] && w'.ledger != w.ledger
    ensures b.entry.transactionID == b.tx.ident.id && b.tx.ident.id in w'.txs && w'.txs[b.tx.ident.id].tx == b.tx
  {
    hide AnnouncedMove, Told;
    assert |w'.ledger| == |w.ledger| + 1;
  }

  // ---- which commits move money ----

  lemma RefuseKeepsLedger(w: World, t: Tx, code: FailureCode, now: Time)
    requires Refuse(w, t, code, now).Ok?
    ensures Refuse(w, t, code, now).value.0.ledger == w.ledger
  {
  }

  /** A settlement that commits moves money exactly when its row covers the amount. */
  lemma SettlementMovesExactly(w: World, t: Tx, row: WalletRow, reference: Option<Id>, direction: Ledger.Direction,
                               code: FailureCode, now: Time)
    requires SettleOn(w, t, row, reference, direction, code, now).Ok?
    ensures SettleOn(w, t, row, reference, direction, code, now).value.0.ledger == w.ledger
            <==> Refuses(row, direction, t.ident.money, now)
  {
    hide Refuse, DebitOf, CreditOf, Ledger.New, UpdateWallet, UpdateTx;
    match MoveOf(row, direction, t.ident.money, now)
    case Err(InsufficientBalance) => RefuseKeepsLedger(w, t, code, now);
    case Ok(moved) =>
      var w' := SettleOn(w, t, row, reference, direction, code, now).value.0;
      CommitAppends(w, Attach(t, reference), moved.0, row.version, moved.1, direction, now);
  }

  lemma CommitAppends(w: World, t: Tx, row: WalletRow, expected: int64, m: Movement, direction: Ledger.Direction,
                      now: Time)
    requires Commit(w, t, row, expected, m, direction, now).Ok?
    ensures |Commit(w, t, row, expected, m, direction, now).value.0.ledger| == |w.ledger| + 1
  {
    hide Ledger.New;
  }

  /** A row refuses exactly a positive debit in its currency of more than it holds. */
  lemma RefusesExactly(row: WalletRow, direction: Ledger.Direction, amount: Money, now: Time)
    ensures Refuses(row, direction, amount, now)
            <==> direction.Debit? && amount.minorUnits > 0 && amount.currency == row.balance.currency
                 && MIN <= row.balance.minorUnits as int - amount.minorUnits < 0
  {
  }

  /** What the reversal `p` finds in the tables lets it move money: its checks pass and its wallet covers it. */
  ghost predicate MovesBack(w: World, p: Ident, now: Time) {
    var found := FindExternal(w.txs, p.providerID, p.reference);
    && RequiresReference(p.kind) && found.Some?
    && ReferenceFault(p, w.txs[found.value].tx) == NoCode && Unreversed(w.txs, found.value)
    && p.walletID in w.wallets
    && !Refuses(w.wallets[p.walletID], DirectionBack(w.txs, found.value), p.money, now)
  }

  lemma ReversalMovesExactly(w: World, t: Tx, target: Id, now: Time)
    requires InMemory(w, t) && RequiresReference(t.ident.kind)
    requires FindExternal(w.txs, t.ident.providerID, t.ident.reference) == Some(target)
    requires Reverse(w, t, target, now).Ok?
    ensures Reverse(w, t, target, now).value.0.ledger != w.ledger <==> MovesBack(w, t.ident, now)
  {
    hide SettleOn, Refuse, Unreversed, CountReversals, ReferenceFault, InMemory, Refuses;
    NoReversals(w.txs, target);
    var code := ReferenceFault(t.ident, w.txs[target].tx);
    if code != NoCode {
      RefuseKeepsLedger(w, t, code, now);
    } else if !Unreversed(w.txs, target) {
      RefuseKeepsLedger(w, t, DuplicateReversal, now);
    } else {
      var direction := DirectionBack(w.txs, target);
      SettleIsOnStored(w, t, Some(target), direction, ReversalExceedsBalance, now);
      hide Settle;
      SettlementMovesExactly(w, t, w.wallets[t.ident.walletID], Some(target), direction, ReversalExceedsBalance, now);
    }
  }

  // ---- one commit, of each kind ----

  /**
   * An attempt on a row as it was listed, outdated or not: the promise survives exactly if what the attempt finds
   * does not let it move money, or nothing was paid back for its reference yet.
   */
  lemma AttemptPaysBackOnceExactly(w: World, policy: RetryPolicy, t: Tx, now: Time)
    requires Sound(w) && Filed(w) && Snapshot(w.txs, t) && Attempt(w, policy, t, now).Ok?
    ensures PaidBackOnce(Attempt(w, policy, t, now).value.0)
            <==> PaidBackOnce(w) && (MovesBack(w, t.ident, now) ==>
                                       !PaidBack(w, t.ident.providerID, t.ident.reference))
  {
    hide Sound, Filed, Snapshot, PaidBackOnce, PaidBack, Rewritable, Reverse, Refuse, InMemory, Effected, Refuses;
    SnapshotInMemory(w, t);
    var w' := Attempt(w, policy, t, now).value.0;
    match FindExternal(w.txs, t.ident.providerID, t.ident.reference)
    case Some(target) =>
      ReverseHasEffect(w, t, target, now);
      ReversalMovesExactly(w, t, target, now);
      hide MovesBack;
      EffectPaysOnce(w, w', t.ident);
    case None =>
      if now - t.ident.createdAt >= policy.maxAge {
        RefuseHasEffect(w, t, FailureCode.ReferenceNotFound, now);
        RefuseKeepsLedger(w, t, FailureCode.ReferenceNotFound, now);
        EffectPaysOnce(w, w', t.ident);
      } else {
        PutOffRewrites(w, policy, t, now);
        RewriteExtends(w, w', Rescheduled(t.ident.id));
        OnceUnmoved(w, w');
      }
  }

  lemma SecondEntryFails(w: World, p: Ident, row: WalletRow, expected: int64, m: Movement, direction: Ledger.Direction,
                         now: Time)
    requires Filed(w) && p.id in w.txs && w.txs[p.id].tx.ident == p && row.id == p.walletID && HasEntry(w.ledger, p.id)
    ensures Book(w, p, row, expected, m, direction, now).Err?
  {
    hide UpdateWallet;
    var i :| 0 <= i < |w.ledger| && w.ledger[i].transactionID == p.id;
    assert Files(w.txs, w.ledger[i]);
  }

  /** A settlement on a row that has moved money before clashes with the entry of that movement. */
  lemma SecondEntryClashes(w: World, t: Tx, row: WalletRow, reference: Option<Id>, direction: Ledger.Direction,
                           code: FailureCode, now: Time)
    requires Filed(w) && t.ident.id in w.txs && w.txs[t.ident.id].tx.ident == t.ident && row.id == t.ident.walletID
    requires HasEntry(w.ledger, t.ident.id) && SettleOn(w, t, row, reference, direction, code, now).Ok?
    ensures Refuses(row, direction, t.ident.money, now)
  {
    hide Refuse, MoveOf, Finish, Book, Filed, HasEntry;
    if MoveOf(row, direction, t.ident.money, now).Ok? {
      var (row', m) := MoveOf(row, direction, t.ident.money, now).value;
      MovedKeepsID(row, direction, t.ident.money, now);
      SecondEntryFails(w, t.ident, row', row.version, m, direction, now);
    }
  }

  /** Writing a reversal keeps every target reversed once by rows exactly when it is refused or first. */
  lemma WriteReversesOnceExactly(txs: map<Id, TxRow>, txs': map<Id, TxRow>, t: Tx, target: Id)
    requires ReversedOnce(txs) && Wrote(txs, txs', t) && RequiresReference(t.ident.kind)
    requires t.status.Processed? && t.ident.id in txs ==> !txs[t.ident.id].tx.status.Processed?
    requires t.status.Processed? ==> t.resolved == Some(target)
    ensures ReversedOnce(txs') <==> !t.status.Processed? || Unreversed(txs, target)
  {
    var id := t.ident.id;
    assert txs'[id].tx == t;
    forall r | r in txs && r != id
      ensures r in txs' && txs'[r] == txs[r]
    {
    }
    if t.status.Processed? && !Unreversed(txs, target) {
      var r :| r in txs && Reverses(txs[r].tx, target);
      assert IsReversal(txs'[r].tx) && IsReversal(txs'[id].tx) && r != id;
    }
    if !t.status.Processed? || Unreversed(txs, target) {
      forall r1, r2 | r1 in txs' && r2 in txs' && r1 != r2 && IsReversal(txs'[r1].tx) && IsReversal(txs'[r2].tx)
        ensures txs'[r1].tx.resolved != txs'[r2].tx.resolved
      {
        assert r1 != id ==> !Reverses(txs[r1].tx, target) || !t.status.Processed?;
        assert r2 != id ==> !Reverses(txs[r2].tx, target) || !t.status.Processed?;
      }
    }
  }

  lemma SettlementWrites(w: World, t: Tx, target: Id, row: WalletRow, direction: Ledger.Direction, now: Time)
    requires InMemory(w, t) && Past(w.wallets, row) && row.id == t.ident.walletID && RequiresReference(t.ident.kind)
    requires target in w.txs && SettleOn(w, t, row, Some(target), direction, ReversalExceedsBalance, now).Ok?
    ensures var (w', t') := SettleOn(w, t, row, Some(target), direction, ReversalExceedsBalance, now).value;
            && Wrote(w.txs, w'.txs, t') && t'.ident == t.ident
            && if Refuses(row, direction, t.ident.money, now) then t'.status.Rejected?
               else t'.status.Processed? && t'.resolved == Some(target)
  {
    hide Refuse, DebitOf, CreditOf, Commit, Wrote;
    match MoveOf(row, direction, t.ident.money, now)
    case Err(InsufficientBalance) => RefuseEffect(w, t, ReversalExceedsBalance, now);
    case Ok(moved) =>
      SettledIsCurrent(w, t, row, Some(target), direction, ReversalExceedsBalance, now);
      var b := CommitEffect(w, Attach(t, Some(target)), row, moved.0, moved.1, direction, now);
  }

  /**
   * A resolver that listed a row and checked its reference at any earlier time, on a wallet read now or earlier: the
   * promise survives its commit exactly if the row it computes from does not cover the amount, or nothing was paid
   * back for the reference yet. By rows alone the last condition would read: nothing stored reverses the target. A
   * row that has moved money meanwhile is not moved again.
   */
  lemma ClearedReversesOnceExactly(w: World, t: Tx, target: Id, row: WalletRow, now: Time)
    requires Sound(w) && Filed(w) && Snapshot(w.txs, t) && target in w.txs
    requires Past(w.wallets, row) && row.id == t.ident.walletID && SettleListed(w, t, target, row, now).Ok?
    ensures var w' := SettleListed(w, t, target, row, now).value.0;
            var refused := Refuses(row, DirectionBack(w.txs, target), t.ident.money, now);
            && (PaidBackOnce(w')
                <==> PaidBackOnce(w) && (refused || !PaidBack(w, t.ident.providerID, t.ident.reference)))
            && (ReversedOnce(w.txs) ==> (ReversedOnce(w'.txs) <==> refused || Unreversed(w.txs, target)))
            && (HasEntry(w.ledger, t.ident.id) ==> refused)
  {
    hide Sound, Filed, SettleOn, ReversedOnce, Unreversed, PaidBackOnce, PaidBack, InMemory, Past, Refuses, Rewritable,
         HasEntry, Effected, Snapshot, Wrote;
    SnapshotInMemory(w, t);
    var (w', t') := SettleListed(w, t, target, row, now).value;
    var direction := DirectionBack(w.txs, target);
    SettleOnHasEffect(w, t, row, Some(target), direction, ReversalExceedsBalance, now);
    SettlementMovesExactly(w, t, row, Some(target), direction, ReversalExceedsBalance, now);
    EffectPaysOnce(w, w', t.ident);
    SettlementWrites(w, t, target, row, direction, now);
    if HasEntry(w.ledger, t.ident.id) {
      SecondEntryClashes(w, t, row, Some(target), direction, ReversalExceedsBalance, now);
    }
    if ReversedOnce(w.txs) {
      if w.txs[t.ident.id].tx.status.Processed? {
        ProcessedHasEntry(w, t.ident);
      }
      WriteReversesOnceExactly(w.txs, w'.txs, t', target);
    }
  }

  lemma ProcessedHasEntry(w: World, p: Ident)
    requires Filed(w) && p.id in w.txs && w.txs[p.id].tx.ident == p && RequiresReference(p.kind)
    requires w.txs[p.id].tx.status.Processed?
    ensures HasEntry(w.ledger, p.id)
  {
    hide HasEntry;
  }

  /** A row that was just inserted changes nothing about what was paid back. */
  lemma InsertedPaysNothing(w: World, p: Ident, w1: World)
    requires Sound(w) && Filed(w) && p.id == w.next && p.id !in w.txs
    requires w1 == w.(txs := w.txs[p.id := TxRow(FreshTx(p), 0, None)], next := w.next + 1)
    ensures Filed(w1) && (PaidBackOnce(w1) <==> PaidBackOnce(w))
    ensures forall provider, reference :: PaidBack(w1, provider, reference) <==> PaidBack(w, provider, reference)
  {
    hide Sound, HasEntry, PaidBackOnce, PaidBack;
    OnceUnmoved(w, w1);
    EntriesStay(w, w1);
    hide Files;
    forall id | id in w1.txs && IsReversal(w1.txs[id].tx)
      ensures HasEntry(w1.ledger, id)
    {
      assert w1.txs[id] == w.txs[id];
    }
  }

  /** The same for a client whose reversal passed its checks at any earlier time. */
  lemma VettedReversesOnceExactly(w: World, cmd: Command, target: Id, row: WalletRow)
    requires Sound(w) && Filed(w) && RequiresReference(cmd.kind) && target in w.txs
    requires Past(w.wallets, row) && row.id == cmd.walletID && ReverseOn(w, cmd, target, row).Ok?
    ensures var w' := ReverseOn(w, cmd, target, row).value.0;
            var refused := Refuses(row, DirectionBack(w.txs, target), cmd.amount, cmd.now);
            && (PaidBackOnce(w') <==> PaidBackOnce(w) && (refused || !PaidBack(w, cmd.providerID, cmd.reference)))
            && (ReversedOnce(w.txs) ==> (ReversedOnce(w'.txs) <==> refused || Unreversed(w.txs, target)))
  {
    hide Sound, Filed, SettleOn, InsertTx, ReversedOnce, Unreversed, PaidBackOnce, PaidBack, CanonicalPayload,
         ExternalFault, InMemory, Past, Refuses, Rewritable, HasEntry, Effected, Writable;
    var p := IdentOf(cmd, w.next);
    Inserts(w, p);
    var w1 := InsertTx(w.(next := w.next + 1), FreshTx(p)).value;
    InsertedPaysNothing(w, p, w1);
    SameReversals(w, w1, p, target);
    var (w', t) := ReverseOn(w, cmd, target, row).value;
    var direction := DirectionBack(w.txs, target);
    SettleOnHasEffect(w1, FreshTx(p), row, Some(target), direction, ReversalExceedsBalance, cmd.now);
    SettlementMovesExactly(w1, FreshTx(p), row, Some(target), direction, ReversalExceedsBalance, cmd.now);
    EffectLifts(w, p, w1, w');
    EffectPaysOnce(w, w', p);
    SettlementWrites(w1, FreshTx(p), target, row, direction, cmd.now);
    LiftWrote(w.txs, TxRow(FreshTx(p), 0, None), w'.txs, t);
    hide Wrote;
    if ReversedOnce(w.txs) {
      WriteReversesOnceExactly(w.txs, w'.txs, t, target);
    }
  }

  /** A new reversal moves money exactly when it ends processed. */
  lemma LedgerTellsStatus(w: World, w': World, c: Change, t: Tx)
    requires Changes(w, w', c) && Leaves(c, t)
    ensures Effected(w, w', t.ident)
    ensures RequiresReference(t.ident.kind) ==> (w'.ledger != w.ledger <==> t.status.Processed?)
  {
    hide Justified, AnnouncedMove, AnnouncedNote, Told, Wrote, Writable, Carried, SawBalance;
    match c
    case Noted(u) => assert Notes(w, w', u);
    case Booked(b) => BookingAppends(w, w', b);
  }

  lemma CreatedReversalMovesExactly(w: World, cmd: Command)
    requires Sound(w) && RequiresReference(cmd.kind) && Create(w, cmd).Ok?
    ensures Create(w, cmd).value.0.ledger != w.ledger <==> MovesBack(w, IdentOf(cmd, w.next), cmd.now)
  {
    hide Sound, Create, CanonicalPayload, Changes, Refuses, MovesBack, Writable, Effected;
    CreateEffect(w, cmd);
    var (w', t) := Create(w, cmd).value;
    var c :| Changes(w, w', c) && Leaves(c, t);
    LedgerTellsStatus(w, w', c, t);
    CreatedIsWritable(w, cmd);
    match FindExternal(w.txs, cmd.providerID, cmd.reference)
    case Some(target) => NamedMovesExactly(w, cmd, target);
    case None =>
      UnnamedMovesNothing(w, cmd);
      if cmd.reference == cmd.externalID {
        SelfReferenceIsRejected(w, cmd);
      } else {
        MissingParks(w, cmd);
      }
  }

  lemma UnnamedMovesNothing(w: World, cmd: Command)
    requires FindExternal(w.txs, cmd.providerID, cmd.reference).None?
    ensures !MovesBack(w, IdentOf(cmd, w.next), cmd.now)
    ensures forall id :: id in w.txs ==> !Names(w.txs, cmd, id)
  {
    hide CanonicalPayload, Refuses, ReferenceFault;
  }

  lemma NamedMovesExactly(w: World, cmd: Command, target: Id)
    requires Sound(w) && RequiresReference(cmd.kind) && Create(w, cmd).Ok? && Writable(w, IdentOf(cmd, w.next))
    requires FindExternal(w.txs, cmd.providerID, cmd.reference) == Some(target)
    ensures Create(w, cmd).value.0.ledger != w.ledger <==> MovesBack(w, IdentOf(cmd, w.next), cmd.now)
  {
    hide Sound, Create, CanonicalPayload, Refuses, Reverse, Unreversed, ReferenceFault;
    var p := IdentOf(cmd, w.next);
    var w1 := w.(txs := w.txs[p.id := TxRow(FreshTx(p), 0, None)], next := w.next + 1);
    DecidingIsReversing(w, cmd);
    NewRowHidesNothing(w, p);
    SameReversals(w, w1, p, target);
    ReversalMovesExactly(w1, FreshTx(p), target, cmd.now);
  }

  lemma NewRowHidesNothing(w: World, p: Ident)
    requires Sound(w) && p.id == w.next && Writable(w, p) && FindExternal(w.txs, p.providerID, p.reference).Some?
    ensures p.id !in w.txs
    ensures FindExternal(w.txs[p.id := TxRow(FreshTx(p), 0, None)], p.providerID, p.reference)
            == FindExternal(w.txs, p.providerID, p.reference)
  {
    UnusedIdentifier(w, w.next);
    hide Sound;
    FoundWithNew(w, TxRow(FreshTx(p), 0, None), p.providerID, p.reference);
  }

  /** A command decided at once, on the tables as they are. */
  lemma CreatePaysBackOnceExactly(w: World, cmd: Command)
    requires Sound(w) && Filed(w) && Create(w, cmd).Ok?
    ensures PaidBackOnce(Create(w, cmd).value.0)
            <==> PaidBackOnce(w) && (MovesBack(w, IdentOf(cmd, w.next), cmd.now) ==>
                                       !PaidBack(w, cmd.providerID, cmd.reference))
  {
    hide Sound, Filed, Create, CanonicalPayload, Changes, MovesBack, Writable, Effected, PaidBackOnce, PaidBack,
         Rewritable;
    CreateEffect(w, cmd);
    var (w', t) := Create(w, cmd).value;
    var c :| Changes(w, w', c) && Leaves(c, t);
    LedgerTellsStatus(w, w', c, t);
    CreatedIsWritable(w, cmd);
    WritableIsRewritable(w, t.ident);
    EffectPaysOnce(w, w', t.ident);
    if RequiresReference(cmd.kind) {
      CreatedReversalMovesExactly(w, cmd);
    } else {
      OthersMoveNothingBack(w, IdentOf(cmd, w.next), cmd.now);
    }
  }

  lemma OthersMoveNothingBack(w: World, p: Ident, now: Time)
    requires !RequiresReference(p.kind)
    ensures !MovesBack(w, p, now)
  {
  }

  /** A command as it arrives, in a message or not: a known key repays nothing. */
  lemma SubmitPaysBackOnceExactly(w: World, cmd: Command)
    requires Sound(w) && Filed(w) && Execute(w, cmd).Ok?
    ensures PaidBackOnce(Execute(w, cmd).value.0)
            <==> PaidBackOnce(w)
                 && (FindKey(w.txs, cmd.providerID, cmd.key).None? && MovesBack(w, IdentOf(cmd, w.next), cmd.now) ==>
                       !PaidBack(w, cmd.providerID, cmd.reference))
  {
    hide Sound, Filed, Create, CanonicalPayload, Changes, MovesBack, PaidBackOnce, PaidBack;
    var w1 := Entered(w, cmd);
    EnteredIsSound(w, cmd);
    InboxPaysNothing(w, w1, cmd);
    if FindKey(w.txs, cmd.providerID, cmd.key).None? {
      CreatePaysBackOnceExactly(w1, cmd);
      InboxPaysNothing(Create(w1, cmd).value.0, Execute(w, cmd).value.0, cmd);
    } else {
      InboxPaysNothing(w, Execute(w, cmd).value.0, cmd);
    }
  }

  /** None of this looks at the inbox. */
  lemma InboxPaysNothing(w: World, w': World, cmd: Command)
    requires w' == w.(inbox := w'.inbox)
    ensures (PaidBackOnce(w') <==> PaidBackOnce(w)) && (Filed(w') <==> Filed(w))
    ensures PaidBack(w', cmd.providerID, cmd.reference) <==> PaidBack(w, cmd.providerID, cmd.reference)
    ensures MovesBack(w', IdentOf(cmd, w.next), cmd.now) <==> MovesBack(w, IdentOf(cmd, w.next), cmd.now)
  {
    hide CanonicalPayload, Refuses, ReferenceFault, Unreversed, Files, HasEntry, SameReference, PaysBack;
  }

  // ---- whole interleavings ----

  /** The reversal that an act carries out by moving money, read off the tables and memories before it. */
  ghost function Repaid(s: System, policy: RetryPolicy, act: Act): Option<Ident> {
    match act
    case Locked(step) => RepaidBy(s.world, policy, step)
    case ReverseVetted(client, source) =>
      if CommitOf(s, policy, act).None? then None
      else
        var (cmd, target) := s.vetted[client];
        var row := RowFor(s, client, source, cmd.walletID).value;
        if Refuses(row, DirectionBack(s.world.txs, target), cmd.amount, cmd.now) then None
        else Some(IdentOf(cmd, s.world.next))
    case AttemptListed(client) =>
      if CommitOf(s, policy, act).Some? && MovesBack(s.world, s.listed[client].0.ident, s.listed[client].1)
      then Some(s.listed[client].0.ident) else None
    case SettleCleared(client, source) =>
      if CommitOf(s, policy, act).None? then None
      else
        var (t, now, target) := s.cleared[client];
        var row := RowFor(s, client, source, t.ident.walletID).value;
        if Refuses(row, DirectionBack(s.world.txs, target), t.ident.money, now) then None else Some(t.ident)
    case _ => None
  }

  ghost function RepaidBy(w: World, policy: RetryPolicy, step: Step): Option<Ident> {
    match step
    case OpenWallet(_, _) => None
    case Submit(cmd, commits) =>
      var p := IdentOf(cmd, w.next);
      if commits && Execute(w, cmd).Ok? && FindKey(w.txs, cmd.providerID, cmd.key).None? && MovesBack(w, p, cmd.now)
      then Some(p) else None
    case Resolve(id, now, commits) =>
      if commits && id in w.txs && Due(w.txs[id], now) && Attempt(w, policy, w.txs[id].tx, now).Ok?
         && MovesBack(w, w.txs[id].tx.ident, now)
      then Some(w.txs[id].tx.ident) else None
  }

  /** What the act repays was not repaid before. */
  ghost predicate RepaysAnew(s: System, policy: RetryPolicy, act: Act) {
    match Repaid(s, policy, act)
    case None => true
    case Some(p) => !PaidBack(s.world, p.providerID, p.reference)
  }

  lemma StepRepaysExactly(s: System, policy: RetryPolicy, step: Step)
    requires Kept(s) && Filed(s.world)
    ensures PaidBackOnce(After(s.world, policy, step)) <==> PaidBackOnce(s.world) && RepaysAnew(s, policy, Locked(step))
  {
    hide Sound, Filed, Balanced, EventsKnown, Reads, Execute, Attempt, Open, MovesBack, PaidBack, PaidBackOnce,
         CanonicalPayload, Due, Snapshot, Changes;
    var w := s.world;
    match step
    case OpenWallet(cmd, commits) =>
      if Open(w, cmd).Ok? {
        OpenEffect(w, cmd);
        var c :| Changes(w, Open(w, cmd).value.0, c) && (c.Opened? || c.Credited?);
        OpeningPaysNothing(w, Open(w, cmd).value.0, c);
      }
    case Submit(cmd, commits) =>
      if Execute(w, cmd).Ok? {
        SubmitPaysBackOnceExactly(w, cmd);
      }
    case Resolve(id, now, commits) =>
      if id in w.txs && Due(w.txs[id], now) && Attempt(w, policy, w.txs[id].tx, now).Ok? {
        DueIsSnapshot(w, id, now);
        AttemptPaysBackOnceExactly(w, policy, w.txs[id].tx, now);
      }
  }

  lemma OpeningPaysNothing(w: World, w': World, c: Change)
    requires Sound(w) && Filed(w) && Changes(w, w', c) && (c.Opened? || c.Credited?)
    ensures PaidBackOnce(w') <==> PaidBackOnce(w)
  {
    hide Sound, Filed, PaidBackOnce, PaidBack, AnnouncedMove, Told, Unowned;
    ChangesExtend(w, w', c);
    hide Extends;
    if c.Credited? {
      OnceWithEntry(w, w', c.entry);
    } else {
      OnceUnmoved(w, w');
    }
  }

  lemma ActRepaysExactly(s: System, policy: RetryPolicy, act: Act)
    requires Kept(s) && Filed(s.world)
    ensures PaidBackOnce(Perform(s, policy, act).world) <==> PaidBackOnce(s.world) && RepaysAnew(s, policy, act)
  {
    hide Sound, Filed, Balanced, EventsKnown, After, MovesBack, PaidBack, PaidBackOnce, CanonicalPayload, Snapshot,
         Past, Known, Vets, Passes, Due, Refuses, Attempt, ReverseOn, SettleListed, CreateOn, RepaidBy, ReversedOnce,
         Unreversed, HasEntry;
    match act
    case Locked(step) => StepRepaysExactly(s, policy, step);
    case CommitSeen(client, cmd) =>
      if CommitOf(s, policy, act).Some? {
        SeenRepaysNothing(s.world, cmd, s.seen[client]);
      }
    case ReverseVetted(client, source) =>
      if CommitOf(s, policy, act).Some? {
        var (cmd, target) := s.vetted[client];
        RowIsPast(s, client, source, cmd.walletID);
        KnownIsStored(s.world.txs, cmd.kind, cmd.providerID, cmd.reference, target);
        VettedReversesOnceExactly(s.world, cmd, target, RowFor(s, client, source, cmd.walletID).value);
      }
    case AttemptListed(client) =>
      if CommitOf(s, policy, act).Some? {
        AttemptPaysBackOnceExactly(s.world, policy, s.listed[client].0, s.listed[client].1);
      }
    case SettleCleared(client, source) =>
      if CommitOf(s, policy, act).Some? {
        var (t, now, target) := s.cleared[client];
        RowIsPast(s, client, source, t.ident.walletID);
        ClearedReversesOnceExactly(s.world, t, target, RowFor(s, client, source, t.ident.walletID).value, now);
      }
    case _ =>
  }

  lemma KnownIsStored(txs: map<Id, TxRow>, kind: Kind, provider: string, reference: string, target: Id)
    requires Known(txs, kind, provider, reference, target)
    ensures RequiresReference(kind) && target in txs
  {
  }

  /** A bet, a win or a loss repays nothing. */
  lemma SeenRepaysNothing(w: World, cmd: Command, row: WalletRow)
    requires Sound(w) && Filed(w) && Past(w.wallets, row) && row.id == cmd.walletID && CreateOn(w, cmd, row).Ok?
    ensures PaidBackOnce(CreateOn(w, cmd, row).value.0) <==> PaidBackOnce(w)
  {
    hide Sound, Filed, BodyOn, InsertTx, Effected, Rewritable, InMemory, CanonicalPayload, ExternalFault, Past,
         Writable, PaidBackOnce, PaidBack;
    var p := IdentOf(cmd, w.next);
    Inserts(w, p);
    var w1 := InsertTx(w.(next := w.next + 1), FreshTx(p)).value;
    BodyHasEffect(w1, FreshTx(p), row, cmd.now);
    BodyIsNoReversal(w1, FreshTx(p), row, cmd.now);
    EffectLifts(w, p, w1, CreateOn(w, cmd, row).value.0);
    EffectPaysOnce(w, CreateOn(w, cmd, row).value.0, p);
  }

  lemma BodyIsNoReversal(w: World, t: Tx, row: WalletRow, now: Time)
    requires BodyOn(w, t, row, now).Ok?
    ensures !RequiresReference(t.ident.kind)
  {
    hide SettleOn, Finish;
  }

  /** Whatever an act does, the tables change in one of the six ways, ended rows not excepted. */
  lemma ActRewrites(s: System, policy: RetryPolicy, act: Act)
    requires Kept(s)
    ensures exists c :: Rewrites(s.world, Perform(s, policy, act).world, c)
  {
    hide Alters, Sound, Balanced, EventsKnown, After, Reads, CommitOf, Passes, Vets, Due, Rewrites;
    var w' := Perform(s, policy, act).world;
    if w' == s.world {
      NothingRewrites(s.world);
    } else if act.Locked? {
      StepChanges(s.world, policy, act.step);
      var c :| Changes(s.world, w', c);
      AlterationRewrites(s.world, w', c);
    } else {
      OutcomeRewrites(s, policy, act);
    }
  }

  lemma NothingRewrites(w: World)
    ensures Rewrites(w, w, Quiet)
  {
  }

  lemma {:induction false} PlayFiles(policy: RetryPolicy, acts: seq<Act>)
    ensures Filed(Play(policy, acts).world)
  {
    if acts != [] {
      hide Perform, Kept, Rewrites, Filed, Sound;
      var s, act := Play(policy, acts[..|acts| - 1]), acts[|acts| - 1];
      PlayFiles(policy, acts[..|acts| - 1]);
      PlayKeeps(policy, acts[..|acts| - 1]);
      KeptIsSound(s);
      ActRewrites(s, policy, act);
      var c :| Rewrites(s.world, Perform(s, policy, act).world, c);
      FiledKept(s.world, Perform(s, policy, act).world, c);
    }
  }

  lemma KeptIsSound(s: System)
    requires Kept(s)
    ensures Sound(s.world)
  {
    hide Sound;
  }

  /** Every act repays only what was not repaid before. */
  ghost predicate AllRepayAnew(policy: RetryPolicy, acts: seq<Act>) {
    acts != [] ==>
      var m := |acts| - 1;
      AllRepayAnew(policy, acts[..m]) && RepaysAnew(Play(policy, acts[..m]), policy, acts[m])
  }

  /**
   * Whatever clients and resolvers do, serially or not, the ledger reverses every reference at most once if and only
   * if each act that moved money for a reversal found nothing booked for its reference.
   */
  lemma {:induction false} PaidBackOnceExactly(policy: RetryPolicy, acts: seq<Act>)
    ensures PaidBackOnce(Play(policy, acts).world) <==> AllRepayAnew(policy, acts)
  {
    if acts != [] {
      hide Perform, Kept, Filed, RepaysAnew, PaidBackOnce;
      var before := acts[..|acts| - 1];
      PaidBackOnceExactly(policy, before);
      PlayKeeps(policy, before);
      PlayFiles(policy, before);
      ActRepaysExactly(Play(policy, before), policy, acts[|acts| - 1]);
    }
  }

  // ---- serial runs ----

  /** In a serial run the rows tell all: reversed once by rows is reversed once by entries. */
  lemma RunPaysBackOnce(policy: RetryPolicy, steps: seq<Step>)
    ensures PaidBackOnce(Run(policy, steps)) && ReversedOnce(Run(policy, steps).txs)
  {
    hide Run, Sound, Consistent;
    RunIsSound(policy, steps);
    RunIsConsistent(policy, steps);
    ConsistentPaysOnce(Run(policy, steps));
  }

  lemma ConsistentPaysOnce(w: World)
    requires Sound(w) && Consistent(w)
    ensures PaidBackOnce(w) && ReversedOnce(w.txs)
  {
    hide RowSound, UniqueKeys, Sound, DirectionOf;
    forall i, j | 0 <= i < j < |w.ledger|
      ensures !SameReference(w.txs, w.ledger[i], w.ledger[j])
    {
      if SameReference(w.txs, w.ledger[i], w.ledger[j]) {
        assert Books(w.txs, w.ledger[i]) && Books(w.txs, w.ledger[j]);
        var a, b := w.ledger[i].transactionID, w.ledger[j].transactionID;
        OneTarget(w, a, b);
      }
    }
  }

  /** Processed reversals that name the same reference resolved to the same row. */
  lemma OneTarget(w: World, a: Id, b: Id)
    requires Sound(w) && Matched(w.txs) && a in w.txs && b in w.txs
    requires IsReversal(w.txs[a].tx) && IsReversal(w.txs[b].tx)
    requires var p := w.txs[a].tx.ident; Against(w.txs[b].tx.ident, p.providerID, p.reference)
    ensures w.txs[a].tx.resolved == w.txs[b].tx.resolved
  {
    hide Sound, ReferenceFault;
    var p := w.txs[a].tx.ident;
    assert Meets(w.txs, p, w.txs[a].tx.resolved.value) && Meets(w.txs, w.txs[b].tx.ident, w.txs[b].tx.resolved.value);
    SoundLookup(w, p.providerID, p.reference, w.txs[a].tx.resolved.value);
    SoundLookup(w, p.providerID, p.reference, w.txs[b].tx.resolved.value);
  }

  /** Without races nothing is reversed twice, by entries or by rows. */
  lemma UnracedReversesOnce(policy: RetryPolicy, acts: seq<Act>)
    requires AllUnraced(policy, acts)
    ensures PaidBackOnce(Play(policy, acts).world) && ReversedOnce(Play(policy, acts).world.txs)
  {
    hide Play, AllUnraced, Run, PaidBackOnce, ReversedOnce;
    InterleavingIsSerial(policy, acts);
    RunPaysBackOnce(policy, Serialized(policy, acts));
  }
}
