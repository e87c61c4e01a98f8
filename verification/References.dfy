/**
 * What every run keeps true of reversals: each cancels the movement of one processed transaction it matches, nothing
 * is reversed twice, and references go from rollback to refund to bet and no further.
 */
module References {
  import opened Prelude
  import opened Int64
  import opened MoneyDomain
  import opened WalletDomain
  import opened WagerDomain
  import opened Store
  import opened Engine
  import opened Runs
  import Ledger = LedgerDomain

  predicate IsReversal(t: Tx) {
    RequiresReference(t.ident.kind) && t.status.Processed?
  }

  /** The stored target is the one the reversal names, and passes its checks. */
  predicate Meets(txs: map<Id, TxRow>, p: Ident, target: Id) {
    && target in txs && HasExternal(txs[target].tx, p.providerID, p.reference)
    && ReferenceFault(p, txs[target].tx) == NoCode
  }

  /** Every processed reversal still names its stored reference and passes the checks against it. */
  ghost predicate Matched(txs: map<Id, TxRow>) {
    forall r :: r in txs && IsReversal(txs[r].tx) ==>
                  var target := txs[r].tx.resolved;
                  target.Some? && target.value != r && Meets(txs, txs[r].tx.ident, target.value)
  }

  ghost predicate ReversedOnce(txs: map<Id, TxRow>) {
    forall r1, r2 :: r1 in txs && r2 in txs && r1 != r2 && IsReversal(txs[r1].tx) && IsReversal(txs[r2].tx) ==>
                       txs[r1].tx.resolved != txs[r2].tx.resolved
  }

  /** The direction a processed transaction moves its wallet in. */
  function DirectionOf(txs: map<Id, TxRow>, t: Tx): Ledger.Direction {
    match t.ident.kind
    case Bet => Ledger.Debit
    case Refund => Ledger.Credit
    case Rollback =>
      if t.resolved.Some? && t.resolved.value in txs then ReversalDirection(txs[t.resolved.value].tx.ident.kind)
      else Ledger.Debit
    case _ => Ledger.Credit
  }

  predicate MovedMoney(t: Tx) {
    t.status.Processed? && (Moves(t.ident.kind) || t.ident.kind.Opening?)
  }

  /** Entry and transaction agree. */
  predicate Books(txs: map<Id, TxRow>, e: Ledger.Entry) {
    && e.transactionID in txs && MovedMoney(txs[e.transactionID].tx)
    && (var t := txs[e.transactionID].tx;
        e.walletID == t.ident.walletID && e.money == t.ident.money && e.direction == DirectionOf(txs, t))
  }

  /** Entries and money-moving transactions correspond one to one. */
  ghost predicate Booked1to1(txs: map<Id, TxRow>, ledger: seq<Ledger.Entry>) {
    && (forall i :: 0 <= i < |ledger| ==> Books(txs, ledger[i]))
    && (forall i, j :: 0 <= i < j < |ledger| ==> ledger[i].transactionID != ledger[j].transactionID)
    && (forall id :: id in txs && MovedMoney(txs[id].tx) ==>
                       exists i :: 0 <= i < |ledger| && ledger[i].transactionID == id)
  }

  ghost predicate Consistent(w: World) {
    Matched(w.txs) && ReversedOnce(w.txs) && Booked1to1(w.txs, w.ledger)
  }

  /** A row that moved money, or was refused, is never written again. */
  ghost predicate TerminalKept(txs: map<Id, TxRow>, txs': map<Id, TxRow>) {
    forall id :: id in txs && IsTerminal(txs[id].tx.status) ==> id in txs' && txs'[id].tx == txs[id].tx
  }

  lemma ChangesKeepTerminal(w: World, w': World, c: Change)
    requires Sound(w) && Changes(w, w', c)
    ensures TerminalKept(w.txs, w'.txs)
  {
    hide UniqueKeys, RowSound, Justified, Carried, AnnouncedMove, AnnouncedNote;
  }

  /** The only row that can have become processed is the one just written. */
  ghost predicate OnlyNew(txs: map<Id, TxRow>, txs': map<Id, TxRow>, id: Id) {
    forall j :: j in txs' && j != id && txs'[j].tx.status.Processed? ==> j in txs && txs'[j].tx == txs[j].tx
  }

  lemma {:induction false} MatchedPreserved(txs: map<Id, TxRow>, txs': map<Id, TxRow>, id: Id)
    requires Matched(txs) && ReversedOnce(txs) && TerminalKept(txs, txs') && OnlyNew(txs, txs', id)
    requires id in txs' && !(id in txs && txs[id].tx.status.Processed?)
    requires IsReversal(txs'[id].tx) ==>
               var target := txs'[id].tx.resolved;
               target.Some? && target.value != id && Unreversed(txs, target.value)
               && Meets(txs, txs'[id].tx.ident, target.value)
    ensures Matched(txs') && ReversedOnce(txs')
  {
    forall r | r in txs' && IsReversal(txs'[r].tx)
      ensures var target := txs'[r].tx.resolved;
              target.Some? && target.value != r && Meets(txs', txs'[r].tx.ident, target.value)
    {
    }
    forall r1, r2 | r1 in txs' && r2 in txs' && r1 != r2 && IsReversal(txs'[r1].tx) && IsReversal(txs'[r2].tx)
      ensures txs'[r1].tx.resolved != txs'[r2].tx.resolved
    {
      if r1 == id {
        assert !Reverses(txs[r2].tx, txs'[r1].tx.resolved.value);
      } else if r2 == id {
        assert !Reverses(txs[r1].tx, txs'[r2].tx.resolved.value);
      }
    }
  }

  /** Entries already booked stay right, because the rows they look at are terminal. */
  lemma BooksKept(txs: map<Id, TxRow>, txs': map<Id, TxRow>, e: Ledger.Entry)
    requires Books(txs, e) && Matched(txs) && TerminalKept(txs, txs')
    ensures Books(txs', e)
  {
    var t := txs[e.transactionID].tx;
    assert txs'[e.transactionID].tx == t;
    if t.ident.kind.Rollback? {
      assert txs'[t.resolved.value].tx == txs[t.resolved.value].tx;
    }
  }

  lemma LedgerUnmoved(txs: map<Id, TxRow>, txs': map<Id, TxRow>, ledger: seq<Ledger.Entry>)
    requires Booked1to1(txs, ledger) && Matched(txs) && TerminalKept(txs, txs')
    requires forall id :: id in txs' && MovedMoney(txs'[id].tx) ==> id in txs && txs[id].tx == txs'[id].tx
    ensures Booked1to1(txs', ledger)
  {
    forall i | 0 <= i < |ledger|
      ensures Books(txs', ledger[i])
    {
      BooksKept(txs, txs', ledger[i]);
    }
  }

  lemma LedgerMoved(txs: map<Id, TxRow>, txs': map<Id, TxRow>, ledger: seq<Ledger.Entry>, e: Ledger.Entry)
    requires Booked1to1(txs, ledger) && Matched(txs) && TerminalKept(txs, txs')
    requires OnlyNew(txs, txs', e.transactionID) && Books(txs', e)
    requires !(e.transactionID in txs && MovedMoney(txs[e.transactionID].tx))
    ensures Booked1to1(txs', ledger + [e])
  {
    var ledger' := ledger + [e];
    forall i | 0 <= i < |ledger'|
      ensures Books(txs', ledger'[i])
    {
      if i < |ledger| {
        BooksKept(txs, txs', ledger[i]);
      }
    }
    forall id | id in txs' && MovedMoney(txs'[id].tx)
      ensures exists i :: 0 <= i < |ledger'| && ledger'[i].transactionID == id
    {
      if id == e.transactionID {
        assert ledger'[|ledger|].transactionID == id;
      } else {
        var i :| 0 <= i < |ledger| && ledger[i].transactionID == id;
        assert ledger'[i].transactionID == id;
      }
    }
  }

  /** What a booking writes: only its own row becomes processed. */
  lemma BookedWrites(w: World, w': World, b: Booking)
    requires Sound(w) && Changes(w, w', Booked(b))
    ensures var id := b.tx.ident.id;
            && id in w'.txs && w'.txs[id].tx == b.tx && OnlyNew(w.txs, w'.txs, id) && b.entry.transactionID == id
            && (id in w.txs ==> !IsTerminal(w.txs[id].tx.status)) && w'.ledger == w.ledger + [b.entry]
  {
    hide UniqueKeys, RowSound, Justified, AnnouncedMove, Told;
  }

  /** Its entry agrees with the row. */
  lemma BookedAgrees(w: World, w': World, b: Booking)
    requires Sound(w) && Changes(w, w', Booked(b)) && TerminalKept(w.txs, w'.txs)
    requires b.tx.ident.id in w'.txs && w'.txs[b.tx.ident.id].tx == b.tx
    ensures Books(w'.txs, b.entry)
  {
    hide UniqueKeys, RowSound, AnnouncedMove, Told, HasExternal, Unreversed, Wrote, Writable;
    if RequiresReference(b.tx.ident.kind) {
      assert w'.txs[b.tx.resolved.value].tx == w.txs[b.tx.resolved.value].tx;
    }
  }

  /** A reversal that is booked meets its target, which nothing reversed before. */
  lemma BookedMeets(w: World, w': World, b: Booking)
    requires Changes(w, w', Booked(b)) && RequiresReference(b.tx.ident.kind)
    ensures var target := b.tx.resolved;
            target.Some? && target.value != b.tx.ident.id && Unreversed(w.txs, target.value)
            && Meets(w.txs, b.tx.ident, target.value)
  {
    hide Alters, ReferenceFault, HasExternal, Unreversed;
  }

  lemma BookedConsistent(w: World, w': World, b: Booking)
    requires Sound(w) && Consistent(w) && Changes(w, w', Booked(b))
    ensures Consistent(w')
  {
    hide Sound, Booked1to1, Matched, ReversedOnce, Changes, Meets, Unreversed, TerminalKept, OnlyNew, Books;
    ChangesKeepTerminal(w, w', Booked(b));
    BookedWrites(w, w', b);
    BookedAgrees(w, w', b);
    if RequiresReference(b.tx.ident.kind) {
      BookedMeets(w, w', b);
    }
    MatchedPreserved(w.txs, w'.txs, b.tx.ident.id);
    LedgerMoved(w.txs, w'.txs, w.ledger, b.entry);
  }

  lemma CreditedConsistent(w: World, w': World, row: WalletRow, t: Tx, e: Ledger.Entry)
    requires Sound(w) && Consistent(w) && Changes(w, w', Credited(row, t, e))
    ensures Consistent(w')
  {
    hide UniqueKeys, RowSound, Booked1to1, Matched, ReversedOnce, AnnouncedMove;
    ChangesKeepTerminal(w, w', Credited(row, t, e));
    assert OnlyNew(w.txs, w'.txs, t.ident.id) && t.ident.id !in w.txs;
    MatchedPreserved(w.txs, w'.txs, t.ident.id);
    LedgerMoved(w.txs, w'.txs, w.ledger, e);
  }

  lemma NotedConsistent(w: World, w': World, t: Tx)
    requires Sound(w) && Consistent(w) && Changes(w, w', Noted(t))
    ensures Consistent(w')
  {
    hide UniqueKeys, RowSound, Booked1to1, Matched, ReversedOnce, AnnouncedNote;
    ChangesKeepTerminal(w, w', Noted(t));
    assert OnlyNew(w.txs, w'.txs, t.ident.id);
    MatchedPreserved(w.txs, w'.txs, t.ident.id);
    LedgerUnmoved(w.txs, w'.txs, w.ledger);
  }

  lemma ConsistentPreserved(w: World, w': World, c: Change)
    requires Sound(w) && Consistent(w) && Changes(w, w', c)
    ensures Consistent(w')
  {
    hide Sound, Booked1to1, Matched, ReversedOnce;
    match c
    case Booked(b) => BookedConsistent(w, w', b);
    case Credited(row, t, e) => CreditedConsistent(w, w', row, t, e);
    case Noted(t) => NotedConsistent(w, w', t);
    case Rescheduled(id) => RescheduledConsistent(w, w', id);
    case _ =>
  }

  lemma RescheduledConsistent(w: World, w': World, id: Id)
    requires Sound(w) && Consistent(w) && Changes(w, w', Rescheduled(id))
    ensures Consistent(w')
  {
    hide UniqueKeys, RowSound, Booked1to1, Matched, ReversedOnce;
    ChangesKeepTerminal(w, w', Rescheduled(id));
    assert OnlyNew(w.txs, w'.txs, id);
    MatchedPreserved(w.txs, w'.txs, id);
    LedgerUnmoved(w.txs, w'.txs, w.ledger);
  }

  lemma {:induction false} RunIsConsistent(policy: RetryPolicy, steps: seq<Step>)
    ensures Consistent(Run(policy, steps))
  {
    if steps != [] {
      var w := Run(policy, steps[..|steps| - 1]);
      RunIsConsistent(policy, steps[..|steps| - 1]);
      RunIsSound(policy, steps[..|steps| - 1]);
      StepChanges(w, policy, steps[|steps| - 1]);
      hide Consistent, Sound, Changes, After;
      var c :| Changes(w, Run(policy, steps), c);
      ConsistentPreserved(w, Run(policy, steps), c);
    }
  }

  // ---- what that says about reversals ----

  /** `r` cancels `t`, which it names: same parties, round and money, and their entries net to zero on one wallet. */
  ghost predicate Cancels(w: World, r: Tx, t: Tx) {
    && t.status.Processed? && HasExternal(t, r.ident.providerID, r.ident.reference)
    && r.ident.providerID == t.ident.providerID && r.ident.playerID == t.ident.playerID
    && r.ident.walletID == t.ident.walletID && r.ident.roundID == t.ident.roundID && r.ident.money == t.ident.money
    && exists i, j :: 0 <= i < |w.ledger| && 0 <= j < |w.ledger| && NetsToZero(w.ledger[i], w.ledger[j], r, t)
  }

  predicate NetsToZero(er: Ledger.Entry, et: Ledger.Entry, r: Tx, t: Tx) {
    && er.transactionID == r.ident.id && et.transactionID == t.ident.id && er.walletID == et.walletID
    && er.direction != et.direction
    && Ledger.Signed(er.direction, er.money.minorUnits) + Ledger.Signed(et.direction, et.money.minorUnits) == 0
  }

  /** The entry of a row that moved money. */
  lemma EntryOf(w: World, id: Id) returns (i: nat)
    requires Booked1to1(w.txs, w.ledger) && id in w.txs && MovedMoney(w.txs[id].tx)
    ensures i < |w.ledger| && w.ledger[i].transactionID == id && Books(w.txs, w.ledger[i])
  {
    i :| 0 <= i < |w.ledger| && w.ledger[i].transactionID == id;
  }

  /** Entries of a reversal and its target net to zero. */
  lemma EntriesNet(txs: map<Id, TxRow>, er: Ledger.Entry, et: Ledger.Entry)
    requires Books(txs, er) && Books(txs, et) && KeyedByID(txs) && IsReversal(txs[er.transactionID].tx)
    requires txs[er.transactionID].tx.resolved == Some(et.transactionID)
    requires ReferenceFault(txs[er.transactionID].tx.ident, txs[et.transactionID].tx) == NoCode
    ensures NetsToZero(er, et, txs[er.transactionID].tx, txs[et.transactionID].tx)
  {
  }

  lemma ReversalCancels(w: World, r: Id)
    requires Consistent(w) && KeyedByID(w.txs) && r in w.txs && IsReversal(w.txs[r].tx)
    ensures var target := w.txs[r].tx.resolved;
            target.Some? && target.value in w.txs && Cancels(w, w.txs[r].tx, w.txs[target.value].tx)
  {
    hide ReversedOnce, Booked1to1, KeyedByID, Books, NetsToZero;
    var t := w.txs[r].tx.resolved.value;
    assert Meets(w.txs, w.txs[r].tx.ident, t);
    var i := EntryOf(w, r);
    var j := EntryOf(w, t);
    EntriesNet(w.txs, w.ledger[i], w.ledger[j]);
  }

  /**
   * After any serial run, every processed refund or rollback cancels the processed transaction it resolved to, and
   * no other processed refund or rollback resolved to that one.
   */
  lemma ReversalsCancelOnce(policy: RetryPolicy, steps: seq<Step>, r: Id)
    requires r in Run(policy, steps).txs && IsReversal(Run(policy, steps).txs[r].tx)
    ensures var w := Run(policy, steps);
            var target := w.txs[r].tx.resolved;
            && target.Some? && target.value in w.txs && Cancels(w, w.txs[r].tx, w.txs[target.value].tx)
            && forall id :: id in w.txs && Reverses(w.txs[id].tx, target.value) ==> id == r
  {
    hide Run, Cancels, Booked1to1;
    RunIsConsistent(policy, steps);
    RunIsSound(policy, steps);
    ReversalCancels(Run(policy, steps), r);
  }

  /** Rollbacks reverse anything but rollbacks, refunds reverse bets only. */
  function Rank(k: Kind): nat {
    match k
    case Rollback => 0
    case Refund => 1
    case _ => 2
  }

  /**
   * References of processed reversals climb in rank, so they form chains of at most two: a rollback is never
   * reversed, and what a reversed refund resolved to is a bet.
   */
  lemma ReferenceChainsAreShort(policy: RetryPolicy, steps: seq<Step>, r: Id)
    requires r in Run(policy, steps).txs && IsReversal(Run(policy, steps).txs[r].tx)
    ensures var txs := Run(policy, steps).txs;
            var target := txs[r].tx.resolved;
            && target.Some? && target.value in txs
            && Rank(txs[target.value].tx.ident.kind) > Rank(txs[r].tx.ident.kind)
            && (IsReversal(txs[target.value].tx) ==>
                  && txs[r].tx.ident.kind.Rollback? && txs[target.value].tx.ident.kind.Refund?
                  && txs[target.value].tx.resolved.Some? && txs[target.value].tx.resolved.value in txs
                  && txs[txs[target.value].tx.resolved.value].tx.ident.kind.Bet?)
  {
    hide Run, Booked1to1;
    RunIsConsistent(policy, steps);
  }

  /** A reversal that names itself is rejected as a mismatch; it is not parked to wait for itself. */
  lemma SelfReferenceIsRejected(w: World, cmd: Command)
    requires Sound(w) && RequiresReference(cmd.kind) && cmd.reference == cmd.externalID && Create(w, cmd).Ok?
    ensures var t := Create(w, cmd).value.1;
            t.status == Rejected && t.failure == FailureCode.ReferenceMismatch
  {
    hide Settle, UniqueKeys, RowSound;
    var p := IdentOf(cmd, w.next);
    InsertEffect(w, p);
    var w1 := InsertTx(w.(next := w.next + 1), FreshTx(p)).value;
    assert w1.txs[p.id].tx == FreshTx(p) && HasExternal(FreshTx(p), p.providerID, p.reference);
    assert FindExternal(w1.txs, p.providerID, p.reference) == Some(p.id);
    assert Dispatch(w1, FreshTx(p), cmd.now) == Reverse(w1, FreshTx(p), p.id, cmd.now);
    RefuseEffect(w1, FreshTx(p), FailureCode.ReferenceMismatch, cmd.now);
  }
}
