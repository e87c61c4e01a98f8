/**
 * Conservation: a wallet holds its opening credit plus its live wins minus its live bets. A processed transaction is
 * live unless a live reversal resolves to it, so rolling back a refund revives the bet it had cancelled.
 */
module Conservation {
  import opened Prelude
  import opened Int64
  import opened MoneyDomain
  import opened WalletDomain
  import opened WagerDomain
  import opened Store
  import opened Engine
  import opened Runs
  import opened References
  import Ledger = LedgerDomain

  /** Recursion by rank: only a reversal of lower rank can cancel a transaction. */
  ghost predicate Live(txs: map<Id, TxRow>, id: Id)
    requires id in txs
    decreases Rank(txs[id].tx.ident.kind)
  {
    && txs[id].tx.status.Processed?
    && forall r :: r in txs && Reverses(txs[r].tx, id) && Rank(txs[r].tx.ident.kind) < Rank(txs[id].tx.ident.kind) ==>
                     !Live(txs, r)
  }

  /** What a transaction is worth to a wallet. Reversals are worth nothing themselves: they switch others off. */
  ghost function Worth(txs: map<Id, TxRow>, id: Id, walletID: Id): int {
    if id in txs && txs[id].tx.ident.walletID == walletID && Live(txs, id) then
      match txs[id].tx.ident.kind
      case Opening => txs[id].tx.ident.money.minorUnits
      case Win => txs[id].tx.ident.money.minorUnits
      case Bet => 0 - txs[id].tx.ident.money.minorUnits
      case _ => 0
    else 0
  }

  /** The worth of all transactions with identifiers below `n`. */
  ghost function TotalWorth(txs: map<Id, TxRow>, walletID: Id, n: nat): int {
    if n == 0 then 0 else TotalWorth(txs, walletID, n - 1) + Worth(txs, n - 1, walletID)
  }

  ghost predicate Conserved(w: World) {
    forall id :: id in w.wallets ==> w.wallets[id].balance.minorUnits == TotalWorth(w.txs, id, w.next)
  }

  // ---- sums ----

  /** If worths differ at `id` only, totals differ by that much. */
  lemma {:induction false} TotalShift(txs: map<Id, TxRow>, txs': map<Id, TxRow>, walletID: Id,
                                      n: nat, id: Id, delta: int)
    requires forall j :: 0 <= j < n && j != id ==> Worth(txs', j, walletID) == Worth(txs, j, walletID)
    requires Worth(txs', id, walletID) == Worth(txs, id, walletID) + delta
    ensures TotalWorth(txs', walletID, n) == TotalWorth(txs, walletID, n) + if id < n then delta else 0
  {
    if n > 0 {
      TotalShift(txs, txs', walletID, n - 1, id, delta);
    }
  }

  /** Unused identifiers are worth nothing. */
  lemma {:induction false} TotalBeyond(txs: map<Id, TxRow>, walletID: Id, n: nat, m: nat)
    requires n <= m && forall id :: id in txs ==> id < n
    ensures TotalWorth(txs, walletID, m) == TotalWorth(txs, walletID, n)
  {
    if n < m {
      TotalBeyond(txs, walletID, n, m - 1);
    }
  }

  // ---- liveness under a change ----

  /** `txs'` differs from `txs` in the row `id`, which was not processed before. */
  ghost predicate OneRow(txs: map<Id, TxRow>, txs': map<Id, TxRow>, id: Id) {
    && TerminalKept(txs, txs') && OnlyNew(txs, txs', id) && Extends(txs, txs')
    && id in txs' && (id in txs ==> !txs[id].tx.status.Processed?)
    && txs'.Keys == txs.Keys + {id}
  }

  /** The changed transactions reverse nothing outside themselves. */
  ghost predicate SelfContained(txs: map<Id, TxRow>, txs': map<Id, TxRow>, changed: set<Id>) {
    forall c, j :: c in changed && c in txs' && j in txs && j !in changed ==> !Reverses(txs'[c].tx, j)
  }

  /** Liveness can only change for transactions that some changed transaction reverses. */
  lemma {:induction false} LiveKept(txs: map<Id, TxRow>, txs': map<Id, TxRow>, id: Id, written: Id, changed: set<Id>)
    requires OneRow(txs, txs', written) && written in changed && id in txs && id !in changed
    requires SelfContained(txs, txs', changed)
    ensures Live(txs', id) == Live(txs, id)
    decreases Rank(txs[id].tx.ident.kind)
  {
    forall r | r in txs && r !in changed && Reverses(txs[r].tx, id)
               && Rank(txs[r].tx.ident.kind) < Rank(txs[id].tx.ident.kind)
      ensures Live(txs', r) == Live(txs, r)
    {
      LiveKept(txs, txs', r, written, changed);
    }
  }

  /** When only `pivot` changes its worth among the changed transactions, the total shifts by that much. */
  lemma TotalAfter(txs: map<Id, TxRow>, txs': map<Id, TxRow>, walletID: Id, n: nat, n': nat, written: Id,
                   changed: set<Id>, pivot: Id, delta: int)
    requires OneRow(txs, txs', written) && written in changed
    requires SelfContained(txs, txs', changed)
    requires forall c :: c in changed && c != pivot ==> Worth(txs', c, walletID) == Worth(txs, c, walletID)
    requires Worth(txs', pivot, walletID) == Worth(txs, pivot, walletID) + delta
    requires n <= n' && pivot < n' && forall id :: id in txs ==> id < n
    ensures TotalWorth(txs', walletID, n') == TotalWorth(txs, walletID, n) + delta
  {
    forall j | 0 <= j < n' && j != pivot
      ensures Worth(txs', j, walletID) == Worth(txs, j, walletID)
    {
      if j in txs && j !in changed {
        LiveKept(txs, txs', j, written, changed);
        assert txs[j].tx.status.Processed? ==> txs'[j].tx == txs[j].tx;
      }
    }
    TotalShift(txs, txs', walletID, n', pivot, delta);
    TotalBeyond(txs, walletID, n, n');
  }

  // ---- the three ways a movement shifts the total ----

  /** A processed transaction starts live: nothing resolves to one before it is processed. */
  lemma NewIsLive(txs: map<Id, TxRow>, txs': map<Id, TxRow>, id: Id)
    requires OneRow(txs, txs', id) && Matched(txs) && txs'[id].tx.status.Processed?
    requires IsReversal(txs'[id].tx) ==> txs'[id].tx.resolved != Some(id)
    ensures Live(txs', id) && (id in txs ==> !Live(txs, id))
  {
    forall r | r in txs' && Reverses(txs'[r].tx, id)
      ensures false
    {
      if r != id {
        assert IsReversal(txs[r].tx);
      }
    }
  }

  lemma MoveOfOriginal(txs: map<Id, TxRow>, txs': map<Id, TxRow>, walletID: Id, n: nat, n': nat, id: Id)
    requires OneRow(txs, txs', id) && Matched(txs) && txs'[id].tx.status.Processed? && !IsReversal(txs'[id].tx)
    requires n <= n' && id < n' && forall i :: i in txs ==> i < n
    requires !txs'[id].tx.ident.kind.Loss? && !txs'[id].tx.ident.kind.Other?
    ensures TotalWorth(txs', walletID, n') == TotalWorth(txs, walletID, n) + Shift(txs', txs'[id].tx, walletID)
  {
    NewIsLive(txs, txs', id);
    TotalAfter(txs, txs', walletID, n, n', id, {id}, id, Shift(txs', txs'[id].tx, walletID));
  }

  /** The signed amount of a transaction, on its own wallet. */
  ghost function Shift(txs: map<Id, TxRow>, t: Tx, walletID: Id): int {
    if t.ident.walletID == walletID then Ledger.Signed(DirectionOf(txs, t), t.ident.money.minorUnits) else 0
  }

  /** Reversing a bet or a win switches it off. */
  lemma MoveOfReversal(txs: map<Id, TxRow>, txs': map<Id, TxRow>, walletID: Id, n: nat, n': nat, id: Id, target: Id)
    requires OneRow(txs, txs', id) && Matched(txs) && Unreversed(txs, target)
    requires IsReversal(txs'[id].tx) && txs'[id].tx.resolved == Some(target) && target in txs && target != id
    requires ReferenceFault(txs'[id].tx.ident, txs[target].tx) == NoCode && !txs[target].tx.ident.kind.Refund?
    requires n <= n' && forall i :: i in txs ==> i < n
    ensures TotalWorth(txs', walletID, n') == TotalWorth(txs, walletID, n) + Shift(txs', txs'[id].tx, walletID)
  {
    NewIsLive(txs, txs', id);
    ReversalSwitchesOff(txs, txs', id, target);
    ReversalWorth(txs, txs', walletID, id, target);
    hide Live, Matched, Unreversed, Worth, SelfContained, Shift;
    TotalAfter(txs, txs', walletID, n, n', id, {id, target}, target, Shift(txs', txs'[id].tx, walletID));
  }

  lemma ReversalSwitchesOff(txs: map<Id, TxRow>, txs': map<Id, TxRow>, id: Id, target: Id)
    requires OneRow(txs, txs', id) && Unreversed(txs, target) && target in txs && target != id
    requires IsReversal(txs'[id].tx) && txs'[id].tx.resolved == Some(target) && Live(txs', id)
    requires ReferenceFault(txs'[id].tx.ident, txs[target].tx) == NoCode
    ensures Live(txs, target) && target in txs' && !Live(txs', target)
  {
    assert Reverses(txs'[id].tx, target);
  }

  /** Only the target's worth changes, by what the reversal moves. */
  lemma ReversalWorth(txs: map<Id, TxRow>, txs': map<Id, TxRow>, walletID: Id, id: Id, target: Id)
    requires OneRow(txs, txs', id) && target in txs && target != id && target in txs'
    requires IsReversal(txs'[id].tx) && txs'[id].tx.resolved == Some(target)
    requires ReferenceFault(txs'[id].tx.ident, txs[target].tx) == NoCode && !txs[target].tx.ident.kind.Refund?
    requires Live(txs, target) && !Live(txs', target)
    ensures Worth(txs', target, walletID) == Worth(txs, target, walletID) + Shift(txs', txs'[id].tx, walletID)
    ensures Worth(txs', id, walletID) == Worth(txs, id, walletID) && SelfContained(txs, txs', {id, target})
  {
    hide Live;
  }

  /** Reversing a refund switches it off and its bet back on. */
  lemma RevivalFlips(txs: map<Id, TxRow>, txs': map<Id, TxRow>, id: Id, refund: Id)
    requires OneRow(txs, txs', id) && Matched(txs) && ReversedOnce(txs) && Unreversed(txs, refund)
    requires IsReversal(txs'[id].tx) && txs'[id].tx.resolved == Some(refund) && refund in txs && refund != id
    requires ReferenceFault(txs'[id].tx.ident, txs[refund].tx) == NoCode && txs[refund].tx.ident.kind.Refund?
    ensures var bet := txs[refund].tx.resolved;
            && bet.Some? && bet.value in txs && bet.value in txs' && refund in txs'
            && txs[bet.value].tx.ident.kind.Bet? && txs[bet.value].tx.status.Processed?
            && Live(txs, refund) && !Live(txs, bet.value) && !Live(txs', refund) && Live(txs', bet.value)
  {
    assert IsReversal(txs[refund].tx);
    var bet := txs[refund].tx.resolved.value;
    assert txs[bet].tx.ident.kind.Bet? && txs[bet].tx.status.Processed?;
    assert Live(txs, refund) && Reverses(txs[refund].tx, bet) && !Live(txs, bet);
    NewIsLive(txs, txs', id);
    assert Reverses(txs'[id].tx, refund) && !Live(txs', refund);
    forall r | r in txs' && Reverses(txs'[r].tx, bet)
      ensures r == refund
    {
    }
  }

  /** The bet gets its worth back, by what the rollback moves; refund and rollback are worth nothing either way. */
  lemma RevivalWorth(txs: map<Id, TxRow>, txs': map<Id, TxRow>, walletID: Id, id: Id, refund: Id)
    requires OneRow(txs, txs', id) && Matched(txs) && refund in txs && refund != id && IsReversal(txs[refund].tx)
    requires IsReversal(txs'[id].tx) && txs'[id].tx.resolved == Some(refund)
    requires ReferenceFault(txs'[id].tx.ident, txs[refund].tx) == NoCode && txs[refund].tx.ident.kind.Refund?
    requires var bet := txs[refund].tx.resolved;
             && bet.Some? && bet.value in txs && bet.value in txs'
             && !Live(txs, bet.value) && Live(txs', bet.value)
    ensures var bet := txs[refund].tx.resolved.value;
            && Worth(txs', bet, walletID) == Worth(txs, bet, walletID) + Shift(txs', txs'[id].tx, walletID)
            && Worth(txs', id, walletID) == Worth(txs, id, walletID)
            && Worth(txs', refund, walletID) == Worth(txs, refund, walletID)
            && SelfContained(txs, txs', {id, refund, bet})
  {
    hide Live;
    var bet := txs[refund].tx.resolved.value;
    assert ReferenceFault(txs[refund].tx.ident, txs[bet].tx) == NoCode;
  }

  /** Rolling back a refund switches the refund off and the bet it had cancelled on again. */
  lemma MoveOfRevival(txs: map<Id, TxRow>, txs': map<Id, TxRow>, walletID: Id, n: nat, n': nat, id: Id, refund: Id)
    requires OneRow(txs, txs', id) && Matched(txs) && ReversedOnce(txs) && Unreversed(txs, refund)
    requires IsReversal(txs'[id].tx) && txs'[id].tx.resolved == Some(refund) && refund in txs && refund != id
    requires ReferenceFault(txs'[id].tx.ident, txs[refund].tx) == NoCode && txs[refund].tx.ident.kind.Refund?
    requires n <= n' && forall i :: i in txs ==> i < n
    ensures TotalWorth(txs', walletID, n') == TotalWorth(txs, walletID, n) + Shift(txs', txs'[id].tx, walletID)
  {
    NewIsLive(txs, txs', id);
    RevivalFlips(txs, txs', id, refund);
    assert IsReversal(txs[refund].tx);
    RevivalWorth(txs, txs', walletID, id, refund);
    var bet := txs[refund].tx.resolved.value;
    hide Live, Matched, ReversedOnce, Unreversed, Worth, SelfContained, Shift;
    TotalAfter(txs, txs', walletID, n, n', id, {id, refund, bet}, bet, Shift(txs', txs'[id].tx, walletID));
  }

  /** A row that is not processed, before or after, shifts nothing. */
  lemma TotalUnmoved(txs: map<Id, TxRow>, txs': map<Id, TxRow>, walletID: Id, n: nat, n': nat, id: Id)
    requires OneRow(txs, txs', id) && n <= n' && id < n' && forall i :: i in txs ==> i < n
    requires txs'[id].tx.status.Processed? ==> txs'[id].tx.ident.kind.Loss?
    ensures TotalWorth(txs', walletID, n') == TotalWorth(txs, walletID, n)
  {
    TotalAfter(txs, txs', walletID, n, n', id, {id}, id, 0);
  }

  /** A wallet nothing refers to has no worth. */
  lemma {:induction false} NoWorth(txs: map<Id, TxRow>, walletID: Id, n: nat)
    requires forall id :: id in txs ==> txs[id].tx.ident.walletID != walletID
    ensures TotalWorth(txs, walletID, n) == 0
  {
    if n > 0 {
      NoWorth(txs, walletID, n - 1);
    }
  }

  // ---- preservation ----

  lemma ChangeOfOneRow(w: World, w': World, c: Change, t: Tx)
    requires Sound(w) && Changes(w, w', c) && Wrote(w.txs, w'.txs, t)
    requires c == Noted(t) || (c.Booked? && c.b.tx == t) || (c.Credited? && c.tx == t)
    ensures OneRow(w.txs, w'.txs, t.ident.id) && w.next <= w'.next && t.ident.id < w'.next
  {
    hide UniqueKeys, RowSound, Justified, Carried, TerminalKept, Extends, AnnouncedMove, AnnouncedNote;
    ChangesKeepTerminal(w, w', c);
    ChangesExtend(w, w', c);
    AlterationRewrites(w, w', c);
    SupplyRises(w, w', c);
  }

  /** The balance moves by the signed amount, in the direction the transaction's kind and target call for. */
  lemma BookedShift(w: World, w': World, b: Booking, walletID: Id)
    requires Sound(w) && Matched(w.txs) && Changes(w, w', Booked(b)) && b.tx.ident.walletID in w.wallets
    ensures Shift(w'.txs, b.tx, walletID) ==
            if walletID == b.tx.ident.walletID
            then b.row.balance.minorUnits - w.wallets[walletID].balance.minorUnits else 0
  {
    hide UniqueKeys, RowSound, AnnouncedMove;
    if RequiresReference(b.tx.ident.kind) {
      assert w'.txs[b.tx.resolved.value].tx.ident == w.txs[b.tx.resolved.value].tx.ident;
    }
  }

  lemma BookedShifts(w: World, w': World, b: Booking, walletID: Id)
    requires Sound(w) && Consistent(w) && Changes(w, w', Booked(b))
    ensures TotalWorth(w'.txs, walletID, w'.next) ==
            TotalWorth(w.txs, walletID, w.next) + Shift(w'.txs, b.tx, walletID)
  {
    hide TotalWorth, OneRow, Live, UniqueKeys, RowSound, Booked1to1, Matched, ReversedOnce, Carried, AnnouncedMove;
    var id := b.tx.ident.id;
    ChangeOfOneRow(w, w', Booked(b), b.tx);
    if IsReversal(b.tx) {
      var target := b.tx.resolved.value;
      if w.txs[target].tx.ident.kind.Refund? {
        MoveOfRevival(w.txs, w'.txs, walletID, w.next, w'.next, id, target);
      } else {
        MoveOfReversal(w.txs, w'.txs, walletID, w.next, w'.next, id, target);
      }
    } else {
      MoveOfOriginal(w.txs, w'.txs, walletID, w.next, w'.next, id);
    }
  }

  lemma BookedConserves(w: World, w': World, b: Booking, id: Id)
    requires Sound(w) && Consistent(w) && Changes(w, w', Booked(b)) && id in w.wallets
    requires w.wallets[id].balance.minorUnits == TotalWorth(w.txs, id, w.next)
    ensures w'.wallets[id].balance.minorUnits == TotalWorth(w'.txs, id, w'.next)
  {
    hide TotalWorth, Sound, Matched, ReversedOnce, Booked1to1, Writable, Wrote, Justified, Carried, AnnouncedMove;
    BookedShifts(w, w', b, id);
    BookedShift(w, w', b, id);
  }

  lemma CreditedConserves(w: World, w': World, row: WalletRow, t: Tx, e: Ledger.Entry, id: Id)
    requires Sound(w) && Consistent(w) && Changes(w, w', Credited(row, t, e)) && id in w'.wallets
    requires id in w.wallets ==> w.wallets[id].balance.minorUnits == TotalWorth(w.txs, id, w.next)
    ensures w'.wallets[id].balance.minorUnits == TotalWorth(w'.txs, id, w'.next)
  {
    hide TotalWorth, Live, UniqueKeys, RowSound, Booked1to1, ReversedOnce, Matched, AnnouncedMove;
    ChangeOfOneRow(w, w', Credited(row, t, e), t);
    hide OneRow;
    if id == row.id {
      NoWorth(w.txs, id, w.next);
    }
    MoveOfOriginal(w.txs, w'.txs, id, w.next, w'.next, t.ident.id);
  }

  lemma NotedConserves(w: World, w': World, t: Tx, id: Id)
    requires Sound(w) && Changes(w, w', Noted(t)) && id in w.wallets
    requires w.wallets[id].balance.minorUnits == TotalWorth(w.txs, id, w.next)
    ensures w'.wallets[id].balance.minorUnits == TotalWorth(w'.txs, id, w'.next)
  {
    hide TotalWorth, Live, UniqueKeys, RowSound;
    ChangeOfOneRow(w, w', Noted(t), t);
    hide OneRow;
    TotalUnmoved(w.txs, w'.txs, id, w.next, w'.next, t.ident.id);
  }

  lemma RescheduledConserves(w: World, w': World, tx: Id, id: Id)
    requires Sound(w) && Changes(w, w', Rescheduled(tx)) && id in w.wallets
    requires w.wallets[id].balance.minorUnits == TotalWorth(w.txs, id, w.next)
    ensures w'.wallets[id].balance.minorUnits == TotalWorth(w'.txs, id, w'.next)
  {
    hide TotalWorth, Live, UniqueKeys, RowSound;
    ChangesKeepTerminal(w, w', Rescheduled(tx));
    TotalUnmoved(w.txs, w'.txs, id, w.next, w'.next, tx);
  }

  lemma OpenedConserves(w: World, w': World, row: WalletRow, id: Id)
    requires Sound(w) && Changes(w, w', Opened(row)) && id in w'.wallets
    requires id in w.wallets ==> w.wallets[id].balance.minorUnits == TotalWorth(w.txs, id, w.next)
    ensures w'.wallets[id].balance.minorUnits == TotalWorth(w'.txs, id, w'.next)
  {
    hide TotalWorth, Live, UniqueKeys, RowSound;
    TotalBeyond(w.txs, id, w.next, w'.next);
    if id == row.id {
      NoWorth(w.txs, id, w.next);
    }
  }

  lemma ConservedPreserved(w: World, w': World, c: Change)
    requires Sound(w) && Consistent(w) && Conserved(w) && Changes(w, w', c)
    ensures Conserved(w')
  {
    forall id | id in w'.wallets
      ensures w'.wallets[id].balance.minorUnits == TotalWorth(w'.txs, id, w'.next)
    {
      hide TotalWorth, Sound, Consistent, Writable, Wrote, Justified, Carried, Unmoved, AnnouncedMove, AnnouncedNote;
      match c
      case Booked(b) => BookedConserves(w, w', b, id);
      case Credited(row, t, e) => CreditedConserves(w, w', row, t, e, id);
      case Noted(t) => NotedConserves(w, w', t, id);
      case Rescheduled(tx) => RescheduledConserves(w, w', tx, id);
      case Opened(row) => OpenedConserves(w, w', row, id);
      case Quiet =>
    }
  }

  lemma {:induction false} RunIsConserved(policy: RetryPolicy, steps: seq<Step>)
    ensures Conserved(Run(policy, steps))
  {
    if steps != [] {
      var w := Run(policy, steps[..|steps| - 1]);
      RunIsConserved(policy, steps[..|steps| - 1]);
      RunIsConsistent(policy, steps[..|steps| - 1]);
      RunIsSound(policy, steps[..|steps| - 1]);
      StepChanges(w, policy, steps[|steps| - 1]);
      hide Conserved, Consistent, Sound, Changes, After;
      var c :| Changes(w, Run(policy, steps), c);
      ConservedPreserved(w, Run(policy, steps), c);
    }
  }

  /**
   * After any serial run of openings, commands, retries and resolver attempts, every balance is the opening amount
   * plus the live wins minus the live bets of the wallet.
   */
  lemma MoneyIsConserved(policy: RetryPolicy, steps: seq<Step>, id: Id)
    requires id in Run(policy, steps).wallets
    ensures var w := Run(policy, steps);
            w.wallets[id].balance.minorUnits == TotalWorth(w.txs, id, w.next)
            && forall t :: t in w.txs ==> t < w.next
  {
    RunIsConserved(policy, steps);
    RunIsSound(policy, steps);
  }

  /**
   * Liveness in plain terms, after any run: a processed bet or win counts unless it was reversed by a rollback, or
   * by a refund that no rollback has reversed in turn.
   */
  lemma LiveInPlainTerms(policy: RetryPolicy, steps: seq<Step>, t: Id)
    requires t in Run(policy, steps).txs
    requires Run(policy, steps).txs[t].tx.status.Processed? && !IsReversal(Run(policy, steps).txs[t].tx)
    ensures var txs := Run(policy, steps).txs;
            !Live(txs, t) <==>
            exists r :: r in txs && Reverses(txs[r].tx, t)
                        && (txs[r].tx.ident.kind.Refund? ==> Unreversed(txs, r))
  {
    hide Run, Booked1to1;
    RunIsConsistent(policy, steps);
    var txs := Run(policy, steps).txs;
    forall r | r in txs && Reverses(txs[r].tx, t)
      ensures Live(txs, r) <==> (txs[r].tx.ident.kind.Refund? ==> Unreversed(txs, r))
    {
      LiveReversal(txs, r);
    }
  }

  lemma LiveReversal(txs: map<Id, TxRow>, r: Id)
    requires Matched(txs) && r in txs && IsReversal(txs[r].tx)
    ensures Live(txs, r) <==> (txs[r].tx.ident.kind.Refund? ==> Unreversed(txs, r))
  {
    forall s | s in txs && Reverses(txs[s].tx, r)
      ensures txs[s].tx.ident.kind.Rollback? && txs[r].tx.ident.kind.Refund? && Live(txs, s)
    {
      assert IsReversal(txs[s].tx);
    }
  }
}
