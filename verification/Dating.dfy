/**
 * Everything a step writes is dated by the step: rows, wallets and entries it creates or changes, the events it
 * appends, which are due at once, and the inbox record it completes.
 */
module Dating {
  import opened Prelude
  import opened Int64
  import opened MoneyDomain
  import opened WalletDomain
  import opened WagerDomain
  import opened Store
  import opened Engine
  import opened Runs
  import opened Idempotency
  import Ledger = LedgerDomain

  /** The row is as it was, or was written now; it keeps the time it was created, which is now if it is new. */
  predicate WalletDated(wallets: map<Id, WalletRow>, id: Id, row: WalletRow, at: Time) {
    && row.createdAt == (if id in wallets then wallets[id].createdAt else at)
    && (row.updatedAt == at || (id in wallets && row == wallets[id]))
  }

  predicate TxDated(txs: map<Id, TxRow>, id: Id, t: Tx, at: Time) {
    && t.ident.createdAt == (if id in txs then txs[id].tx.ident.createdAt else at)
    && (t.updatedAt == at || (id in txs && t == txs[id].tx))
  }

  ghost predicate Dated(w: World, w': World, at: Time) {
    && (forall id :: id in w'.wallets ==> WalletDated(w.wallets, id, w'.wallets[id], at))
    && (forall id :: id in w'.txs ==> TxDated(w.txs, id, w'.txs[id].tx, at))
    && w.ledger <= w'.ledger && (forall i :: |w.ledger| <= i < |w'.ledger| ==> w'.ledger[i].createdAt == at)
    && w.outbox <= w'.outbox && (forall i :: |w.outbox| <= i < |w'.outbox| ==> DueAtOnce(w'.outbox[i], at))
    && w.wallets.Keys <= w'.wallets.Keys && w.txs.Keys <= w'.txs.Keys
  }

  predicate DueAtOnce(rec: OutboxRecord, at: Time) {
    rec.occurredAt == at && rec.nextAttempt == at && rec.attempts == 0 && rec.publishedAt.None?
  }

  lemma NothingIsDated(w: World, w': World, at: Time)
    requires w' == w.(inbox := w'.inbox, next := w'.next)
    ensures Dated(w, w', at)
  {
  }

  lemma DatedOn(a: World, b: World, c: World, at: Time)
    requires Dated(a, b, at) && Dated(b, c, at)
    ensures Dated(a, c, at)
  {
    hide DueAtOnce;
    forall i | |a.ledger| <= i < |c.ledger|
      ensures c.ledger[i].createdAt == at
    {
      assert i < |b.ledger| ==> c.ledger[i] == b.ledger[i];
    }
    forall i | |a.outbox| <= i < |c.outbox|
      ensures DueAtOnce(c.outbox[i], at)
    {
      assert i < |b.outbox| ==> c.outbox[i] == b.outbox[i];
    }
  }

  // ---- statement by statement ----

  lemma EventIsDated(w: World, e: Event, now: Time)
    ensures Dated(w, AppendEvent(w, e, now), now)
  {
  }

  lemma UpdateIsDated(w: World, t: Tx)
    requires UpdateTx(w, t).Ok?
    ensures Dated(w, UpdateTx(w, t).value, t.updatedAt)
  {
  }

  lemma InsertIsDated(w: World, t: Tx)
    requires InsertTx(w, t).Ok? && t.updatedAt == t.ident.createdAt
    ensures Dated(w, InsertTx(w, t).value, t.updatedAt)
  {
  }

  lemma BookIsDated(w: World, p: Ident, row: WalletRow, expected: int64, m: Movement, direction: Ledger.Direction,
                    now: Time)
    requires row.updatedAt == now && Book(w, p, row, expected, m, direction, now).Ok?
    ensures Dated(w, Book(w, p, row, expected, m, direction, now).value, now)
  {
    Ledger.NewIsExact(w.next, row.id, p.id, direction, p.money, m.before, m.after, now);
    hide Ledger.New;
  }

  lemma RefuseIsDated(w: World, t: Tx, code: FailureCode, now: Time)
    requires Refuse(w, t, code, now).Ok?
    ensures Dated(w, Refuse(w, t, code, now).value.0, now)
  {
    hide Dated, UpdateTx, AppendEvent;
    UpdateIsDated(w, RejectedTx(t, code, now));
    var w1 := UpdateTx(w, RejectedTx(t, code, now)).value;
    EventIsDated(w1, RejectedEvent(t.ident, code, now), now);
    DatedOn(w, w1, Refuse(w, t, code, now).value.0, now);
  }

  lemma FinishIsDated(w: World, t: Tx, resulting: Money, now: Time)
    requires Finish(w, t, resulting, now).Ok?
    ensures Dated(w, Finish(w, t, resulting, now).value.0, now)
  {
    hide Dated, UpdateTx, AppendEvent;
    var t' := ProcessedTx(t, resulting, now);
    UpdateIsDated(w, t');
    var w1 := UpdateTx(w, t').value;
    EventIsDated(w1, ProcessedEvent(t.ident, t'.resulting, now), now);
    DatedOn(w, w1, Finish(w, t, resulting, now).value.0, now);
  }

  lemma ParkIsDated(w: World, t: Tx, now: Time)
    requires Park(w, t, now).Ok?
    ensures Dated(w, Park(w, t, now).value.0, now)
  {
    hide Dated, UpdateTx, AppendEvent;
    UpdateIsDated(w, ParkedTx(t, now));
    var w1 := UpdateTx(w, ParkedTx(t, now)).value;
    EventIsDated(w1, ParkedEvent(t.ident), now);
    DatedOn(w, w1, Park(w, t, now).value.0, now);
  }

  lemma CommitIsDated(w: World, t: Tx, row: WalletRow, expected: int64, m: Movement, direction: Ledger.Direction,
                      now: Time)
    requires row.updatedAt == now && Commit(w, t, row, expected, m, direction, now).Ok?
    ensures Dated(w, Commit(w, t, row, expected, m, direction, now).value.0, now)
  {
    hide Dated, Book, Finish, AppendEvent;
    BookIsDated(w, t.ident, row, expected, m, direction, now);
    var w1 := Book(w, t.ident, row, expected, m, direction, now).value;
    FinishIsDated(w1, t, m.after, now);
    var w2 := Finish(w1, t, m.after, now).value.0;
    EventIsDated(w2, MovementEvent(t.ident, row.id, direction, m), now);
    DatedOn(w, w1, w2, now);
    DatedOn(w, w2, Commit(w, t, row, expected, m, direction, now).value.0, now);
  }

  // ---- use case by use case ----

  lemma SettleIsDated(w: World, t: Tx, reference: Option<Id>, direction: Ledger.Direction, code: FailureCode, now: Time)
    requires Settle(w, t, reference, direction, code, now).Ok?
    ensures Dated(w, Settle(w, t, reference, direction, code, now).value.0, now)
  {
    hide Dated, Refuse, Commit, DebitOf, CreditOf;
    var row := w.wallets[t.ident.walletID];
    match MoveOf(row, direction, t.ident.money, now)
    case Err(_) => RefuseIsDated(w, t, code, now);
    case Ok(moved) =>
      MoveEffect(row, direction, t.ident.money, now);
      CommitIsDated(w, Attach(t, reference), moved.0, row.version, moved.1, direction, now);
  }

  lemma ReverseIsDated(w: World, t: Tx, target: Id, now: Time)
    requires target in w.txs && Reverse(w, t, target, now).Ok?
    ensures Dated(w, Reverse(w, t, target, now).value.0, now)
  {
    hide Dated, Refuse, Settle, ReferenceFault, CountReversals;
    var ref := w.txs[target].tx;
    var code := ReferenceFault(t.ident, ref);
    if code != NoCode {
      RefuseIsDated(w, t, code, now);
    } else if CountReversals(w.txs, target, Refund) + CountReversals(w.txs, target, Rollback) > 0 {
      RefuseIsDated(w, t, DuplicateReversal, now);
    } else {
      SettleIsDated(w, t, Some(target), ReversalDirection(ref.ident.kind), ReversalExceedsBalance, now);
    }
  }

  lemma DispatchIsDated(w: World, t: Tx, now: Time)
    requires Dispatch(w, t, now).Ok?
    ensures Dated(w, Dispatch(w, t, now).value.0, now)
  {
    hide Dated, Settle, Reverse, Park, Finish;
    match t.ident.kind
    case Bet => SettleIsDated(w, t, None, Ledger.Debit, InsufficientFunds, now);
    case Win =>
      SettleIsDated(w, t, FindExternal(w.txs, t.ident.providerID, t.ident.reference), Ledger.Credit, InsufficientFunds,
                    now);
    case Loss => FinishIsDated(w, t, w.wallets[t.ident.walletID].balance, now);
    case _ =>
      match FindExternal(w.txs, t.ident.providerID, t.ident.reference)
      case None => ParkIsDated(w, t, now);
      case Some(target) => ReverseIsDated(w, t, target, now);
  }

  lemma CreateIsDated(w: World, cmd: Command)
    requires Create(w, cmd).Ok?
    ensures Dated(w, Create(w, cmd).value.0, cmd.now)
  {
    hide Dated, Dispatch, InsertTx, CanonicalPayload, ExternalFault;
    var t := FreshTx(IdentOf(cmd, w.next));
    var w1 := w.(next := w.next + 1);
    NothingIsDated(w, w1, cmd.now);
    InsertIsDated(w1, t);
    var w2 := InsertTx(w1, t).value;
    DispatchIsDated(w2, t, cmd.now);
    DatedOn(w, w1, w2, cmd.now);
    DatedOn(w, w2, Create(w, cmd).value.0, cmd.now);
  }

  /** The inbox record of a message: received when it was first seen, completed when it was first handled. */
  ghost predicate InboxDated(w: World, w': World, k: InboxKey, at: Time) {
    && k in w'.inbox
    && w'.inbox[k].receivedAt == (if k in w.inbox then w.inbox[k].receivedAt else at)
    && w'.inbox[k].completedAt == (if k in w.inbox && w.inbox[k].completedAt.Some? then w.inbox[k].completedAt
                                   else Some(at))
    && forall j :: j != k ==> (j in w'.inbox <==> j in w.inbox) && (j in w.inbox ==> w'.inbox[j] == w.inbox[j])
  }

  /** Executing a command is creating it, or nothing, around the inbox. */
  lemma ExecuteIsCreate(w: World, cmd: Command)
    requires Execute(w, cmd).Ok?
    ensures var w' := Execute(w, cmd).value.0;
            var w1 := Entered(w, cmd);
            w' == w.(inbox := w'.inbox)
            || (Create(w1, cmd).Ok? && w' == Create(w1, cmd).value.0.(inbox := w'.inbox))
  {
    hide Create, CanonicalPayload;
  }

  lemma MessageIsDated(w: World, cmd: Command)
    requires Sound(w) && Execute(w, cmd).Ok?
    ensures var w' := Execute(w, cmd).value.0;
            if cmd.inbox.Some? then InboxDated(w, w', cmd.inbox.value, cmd.now) else w'.inbox == w.inbox
  {
    hide Process, CanonicalPayload, Sound, InboxDated;
    var w1 := Entered(w, cmd);
    EnteredIsSound(w, cmd);
    if cmd.inbox.None? {
      ProcessKeepsInbox(w, cmd);
    } else if cmd.inbox.value in w.inbox && w.inbox[cmd.inbox.value].completedAt.Some? {
      StayingIsDated(w, cmd.inbox.value, cmd.now);
    } else {
      ProcessKeepsInbox(w1, cmd);
      CompletionIsDated(w, cmd, Process(w1, cmd).value.0);
    }
  }

  lemma StayingIsDated(w: World, k: InboxKey, now: Time)
    requires k in w.inbox && w.inbox[k].completedAt.Some?
    ensures InboxDated(w, w, k, now)
  {
  }

  lemma CompletionIsDated(w: World, cmd: Command, done: World)
    requires cmd.inbox.Some? && done.inbox == Entered(w, cmd).inbox
    requires cmd.inbox.value in w.inbox ==> w.inbox[cmd.inbox.value].completedAt.None?
    ensures InboxDated(w, CompleteInbox(done, cmd.inbox.value, cmd.now), cmd.inbox.value, cmd.now)
  {
    hide CanonicalPayload;
  }

  lemma ExecuteIsDated(w: World, cmd: Command)
    requires Execute(w, cmd).Ok?
    ensures Dated(w, Execute(w, cmd).value.0, cmd.now)
  {
    hide Dated, Create, Execute, CanonicalPayload;
    var w', w1 := Execute(w, cmd).value.0, Entered(w, cmd);
    ExecuteIsCreate(w, cmd);
    NothingIsDated(w, w1, cmd.now);
    if w' == w.(inbox := w'.inbox) {
      NothingIsDated(w, w', cmd.now);
    } else {
      var w2 := Create(w1, cmd).value.0;
      CreateIsDated(w1, cmd);
      NothingIsDated(w2, w', cmd.now);
      DatedOn(w, w1, w2, cmd.now);
      DatedOn(w, w2, w', cmd.now);
    }
  }

  lemma AttemptIsDated(w: World, policy: RetryPolicy, t: Tx, now: Time)
    requires Attempt(w, policy, t, now).Ok?
    ensures Dated(w, Attempt(w, policy, t, now).value.0, now)
  {
    hide Dated, Reverse, Refuse;
    match FindExternal(w.txs, t.ident.providerID, t.ident.reference)
    case Some(target) => ReverseIsDated(w, t, target, now);
    case None =>
      if now - t.ident.createdAt >= policy.maxAge {
        RefuseIsDated(w, t, ReferenceNotFound, now);
      } else {
        PutOffIsDated(w, t.ident.id, 1, now + policy.baseBackoff, now);
      }
  }

  lemma PutOffIsDated(w: World, id: Id, attempts: nat, retryAt: Time, now: Time)
    ensures Dated(w, RecordAttempt(w, id, attempts, retryAt), now)
  {
  }

  lemma CreditIsDated(w: World, walletID: Id, cmd: OpenCommand)
    requires CreditOpening(w, walletID, cmd).Ok?
    ensures Dated(w, CreditOpening(w, walletID, cmd).value, cmd.now)
  {
    hide Dated, InsertTx, OpeningEntry, AppendEvent;
    var t := OpeningTx(w.next, walletID, cmd.playerID, cmd.initialBalance, cmd.now);
    var w1 := w.(next := w.next + 1);
    NothingIsDated(w, w1, cmd.now);
    InsertIsDated(w1, t);
    var w2 := InsertTx(w1, t).value;
    EntryIsDated(w2, walletID, t.ident.id, cmd);
    var w3 := OpeningEntry(w2, walletID, t.ident.id, cmd).value;
    EventsAreDated(w3, t, cmd);
    DatedOn(w, w1, w2, cmd.now);
    DatedOn(w, w2, w3, cmd.now);
    DatedOn(w, w3, OpeningEvents(w3, t, cmd), cmd.now);
  }

  lemma EntryIsDated(w: World, walletID: Id, openingID: Id, cmd: OpenCommand)
    requires OpeningEntry(w, walletID, openingID, cmd).Ok?
    ensures Dated(w, OpeningEntry(w, walletID, openingID, cmd).value, cmd.now)
  {
    var amount := cmd.initialBalance;
    Ledger.NewIsExact(w.next, walletID, openingID, Ledger.Credit, amount, Money(0, amount.currency), amount, cmd.now);
    hide Ledger.New;
  }

  lemma EventsAreDated(w: World, t: Tx, cmd: OpenCommand)
    ensures Dated(w, OpeningEvents(w, t, cmd), cmd.now)
  {
    hide Dated, AppendEvent;
    var w1 := AppendEvent(w, ProcessedEvent(t.ident, t.resulting, cmd.now), cmd.now);
    var amount := cmd.initialBalance;
    var zero := Money(0, amount.currency);
    var moved := BalanceChanged(t.ident.walletID, t.ident.id, Ledger.Credit, amount, zero, amount, 1);
    EventIsDated(w, ProcessedEvent(t.ident, t.resulting, cmd.now), cmd.now);
    EventIsDated(w1, moved, cmd.now);
    DatedOn(w, w1, AppendEvent(w1, moved, cmd.now), cmd.now);
  }

  lemma WalletIsDated(w: World, row: WalletRow)
    requires InsertWallet(w, row).Ok? && row.createdAt == row.updatedAt
    ensures Dated(w, InsertWallet(w, row).value, row.createdAt)
  {
  }

  lemma OpenIsDated(w: World, cmd: OpenCommand)
    requires Open(w, cmd).Ok?
    ensures Dated(w, Open(w, cmd).value.0, cmd.now)
  {
    hide Dated, InsertWallet, CreditOpening;
    var row := WalletRow(w.next, cmd.playerID, cmd.initialBalance, 1, cmd.now, cmd.now);
    var w1 := w.(next := w.next + 1);
    NothingIsDated(w, w1, cmd.now);
    WalletIsDated(w1, row);
    var w2 := InsertWallet(w1, row).value;
    DatedOn(w, w1, w2, cmd.now);
    if cmd.initialBalance.minorUnits != 0 {
      CreditIsDated(w2, row.id, cmd);
      DatedOn(w, w2, Open(w, cmd).value.0, cmd.now);
    }
  }

  /** When the use case of a step was called. */
  function TimeOf(step: Step): Time {
    match step
    case OpenWallet(cmd, _) => cmd.now
    case Submit(cmd, _) => cmd.now
    case Resolve(_, now, _) => now
  }

  /**
   * Whatever a step changes bears its time: a new wallet or transaction is created then and keeps that, whatever is
   * written is updated then, entries are made then, and events occur then and are due at once. The message of a
   * command is received when first seen and completed when first handled.
   */
  lemma StepIsDated(w: World, policy: RetryPolicy, step: Step)
    requires Sound(w)
    ensures Dated(w, After(w, policy, step), TimeOf(step))
    ensures step.Submit? && step.commits && step.cmd.inbox.Some? && Execute(w, step.cmd).Ok? ==>
              InboxDated(w, After(w, policy, step), step.cmd.inbox.value, step.cmd.now)
  {
    hide Dated, Sound, Open, Execute, Attempt, Due, InboxDated;
    NothingIsDated(w, w, TimeOf(step));
    match step
    case OpenWallet(cmd, commits) =>
      if Open(w, cmd).Ok? {
        OpenIsDated(w, cmd);
      }
    case Submit(cmd, commits) =>
      if Execute(w, cmd).Ok? {
        ExecuteIsDated(w, cmd);
        MessageIsDated(w, cmd);
      }
    case Resolve(id, now, commits) =>
      if id in w.txs && Due(w.txs[id], now) && Attempt(w, policy, w.txs[id].tx, now).Ok? {
        AttemptIsDated(w, policy, w.txs[id].tx, now);
      }
  }
}
