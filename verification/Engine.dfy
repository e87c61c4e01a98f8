/**
 * What the three use cases compute, as functions from the tables to the tables. An error carries no tables: the
 * enclosing database transaction rolls back.
 */
module Engine {
  import opened Prelude
  import opened Int64
  import opened MoneyDomain
  import opened WalletDomain
  import opened WagerDomain
  import opened Store
  import Ledger = LedgerDomain

  datatype Command = Command(providerID: string, externalID: string, key: string, playerID: Id, walletID: Id,
                             roundID: string, gameID: string, kind: Kind, amount: Money, reference: string,
                             now: Time, inbox: Option<InboxKey>)

  datatype ResultStatus = ResultProcessed | ResultRejected | ResultPending | ResultPendingReference

  datatype ProcessResult = ProcessResult(transactionID: Id, status: ResultStatus, balance: Option<Money>,
                                         failure: FailureCode, replay: bool)

  type Written = Result<(World, Tx), Error>

  function CanonicalPayload(cmd: Command): Payload {
    Payload(cmd.providerID, cmd.externalID, cmd.playerID, cmd.walletID, cmd.roundID, cmd.gameID, cmd.kind,
            String(cmd.amount), cmd.amount.currency, cmd.reference)
  }

  function IdentOf(cmd: Command, id: Id): Ident {
    Ident(id, cmd.providerID, cmd.externalID, cmd.key, Some(CanonicalPayload(cmd)), cmd.walletID, cmd.playerID,
          cmd.roundID, cmd.gameID, cmd.kind, cmd.amount, cmd.reference, cmd.now)
  }

  function ResultOf(t: Tx, replay: bool): ProcessResult {
    var status := match t.status
      case Processed => ResultProcessed
      case Rejected => ResultRejected
      case PendingReference => ResultPendingReference
      case _ => ResultPending;
    ProcessResult(t.ident.id, status, t.resulting, t.failure, replay)
  }

  /** Save the rejected transaction and announce it. */
  function Refuse(w: World, t: Tx, code: FailureCode, now: Time): Written {
    var t' := RejectedTx(t, code, now);
    match UpdateTx(w, t')
    case Err(e) => Err(e)
    case Ok(w1) =>
      Ok((AppendEvent(w1, RejectedEvent(t.ident, code, now), now), t'))
  }

  /** Save the processed transaction and announce it. */
  function Finish(w: World, t: Tx, resulting: Money, now: Time): Written {
    var t' := ProcessedTx(t, resulting, now);
    match UpdateTx(w, t')
    case Err(e) => Err(e)
    case Ok(w1) =>
      Ok((AppendEvent(w1, ProcessedEvent(t.ident, t'.resulting, now), now), t'))
  }

  function Attach(t: Tx, reference: Option<Id>): Tx {
    if reference.Some? then t.(resolved := reference) else t
  }

  function MoveOf(row: WalletRow, direction: Ledger.Direction, amount: Money, now: Time): MovementResult {
    match direction
    case Debit => DebitOf(row, amount, now)
    case Credit => CreditOf(row, amount, now)
  }

  /** Append the entry of a movement and save the moved wallet. */
  function Book(w: World, p: Ident, row: WalletRow, expected: int64, m: Movement, direction: Ledger.Direction,
                now: Time): Write
  {
    match Ledger.New(w.next, row.id, p.id, direction, p.money, m.before, m.after, now)
    case Err(e) => Err(e)
    case Ok(entry) =>
      match InsertEntry(w.(next := w.next + 1), entry)
      case Err(e) => Err(e)
      case Ok(w1) =>
        UpdateWallet(w1, row, expected)
  }

  function MovementEvent(p: Ident, walletID: Id, direction: Ledger.Direction, m: Movement): Event {
    BalanceChanged(walletID, p.id, direction, p.money, m.before, m.after, m.version)
  }

  /** Book the movement, save the processed transaction, announce both. */
  function Commit(w: World, t: Tx, row: WalletRow, expected: int64, m: Movement, direction: Ledger.Direction,
                  now: Time): Written
  {
    match Book(w, t.ident, row, expected, m, direction, now)
    case Err(e) => Err(e)
    case Ok(w1) =>
      match Finish(w1, t, m.after, now)
      case Err(e) => Err(e)
      case Ok(done) =>
        Ok((AppendEvent(done.0, MovementEvent(t.ident, row.id, direction, m), now), done.1))
  }

  /** Move the transaction's wallet, or refuse with the given code when the balance does not cover a debit. */
  function Settle(w: World, t: Tx, reference: Option<Id>, direction: Ledger.Direction, code: FailureCode,
                  now: Time): Written
  {
    if t.ident.walletID !in w.wallets then Err(NotFound)
    else
      var row := w.wallets[t.ident.walletID];
      match MoveOf(row, direction, t.ident.money, now)
      case Err(InsufficientBalance) => Refuse(w, t, code, now)
      case Err(e) => Err(e)
      case Ok(moved) => Commit(w, Attach(t, reference), moved.0, row.version, moved.1, direction, now)
  }

  /** A loss moves nothing; it records the balance it saw. */
  function Observe(w: World, t: Tx, now: Time): Written {
    if t.ident.walletID !in w.wallets then Err(NotFound)
    else Finish(w, t, w.wallets[t.ident.walletID].balance, now)
  }

  function Park(w: World, t: Tx, now: Time): Written {
    var t' := ParkedTx(t, now);
    match UpdateTx(w, t')
    case Err(e) => Err(e)
    case Ok(w1) =>
      Ok((AppendEvent(w1, ParkedEvent(t.ident), now), t'))
  }

  /** The first check of validateReversalReference that fails; a refund expects a bet, a rollback more kinds. */
  function ReferenceFault(p: Ident, ref: Tx): FailureCode {
    if p.kind.Refund? && !ref.ident.kind.Bet? then ReferenceMismatch
    else if !p.kind.Refund? && !ref.ident.kind.Bet? && !ref.ident.kind.Win? && !ref.ident.kind.Refund?
    then ReferenceMismatch
    else if !ref.status.Processed? then ReferenceNotProcessed
    else if ref.ident.providerID != p.providerID || ref.ident.playerID != p.playerID
            || ref.ident.walletID != p.walletID
    then ReferenceMismatch
    else if ref.ident.roundID != p.roundID then ReferenceMismatch
    else if ref.ident.money != p.money then ReferenceMismatch
    else NoCode
  }

  function ReversalDirection(original: Kind): Ledger.Direction {
    if original.Bet? then Ledger.Credit else Ledger.Debit
  }

  /** Reverse a known reference: check it, check nothing reversed it before, move the wallet back. */
  function Reverse(w: World, t: Tx, target: Id, now: Time): Written
    requires target in w.txs
  {
    var ref := w.txs[target].tx;
    var code := ReferenceFault(t.ident, ref);
    if code != NoCode then Refuse(w, t, code, now)
    else if CountReversals(w.txs, target, Refund) + CountReversals(w.txs, target, Rollback) > 0
    then Refuse(w, t, DuplicateReversal, now)
    else Settle(w, t, Some(target), ReversalDirection(ref.ident.kind), ReversalExceedsBalance, now)
  }

  /** The kind switch, on a transaction whose row has just been created. */
  ghost function Dispatch(w: World, t: Tx, now: Time): Written {
    match t.ident.kind
    case Bet => Settle(w, t, None, Ledger.Debit, InsufficientFunds, now)
    case Win => Settle(w, t, FindExternal(w.txs, t.ident.providerID, t.ident.reference), Ledger.Credit,
                       InsufficientFunds, now)
    case Loss => Observe(w, t, now)
    case Opening => Err(InvalidKindForOperation)
    case Other(_) => Err(InvalidKindForOperation)
    case _ =>
      match FindExternal(w.txs, t.ident.providerID, t.ident.reference)
      case None => Park(w, t, now)
      case Some(target) => Reverse(w, t, target, now)
  }

  type Processed = Result<(World, ProcessResult), Error>

  ghost function Create(w: World, cmd: Command): Written {
    var p := IdentOf(cmd, w.next);
    if ExternalFault(p).Some? then Err(ExternalFault(p).value)
    else
      match InsertTx(w.(next := w.next + 1), FreshTx(p))
      case Err(e) => Err(e)
      case Ok(w1) =>
        Dispatch(w1, FreshTx(p), cmd.now)
  }

  /** processIdempotently: replay a known command, refuse a conflicting one, otherwise create and dispatch. */
  ghost function Process(w: World, cmd: Command): Processed {
    var byExternal := FindExternal(w.txs, cmd.providerID, cmd.externalID);
    var byKey := FindKey(w.txs, cmd.providerID, cmd.key);
    if byExternal.Some? && w.txs[byExternal.value].tx.ident.key != cmd.key then Err(ExternalTransactionKeyMismatch)
    else if byKey.Some? then
      if w.txs[byKey.value].tx.ident.hash != Some(CanonicalPayload(cmd)) then Err(IdempotencyKeyReused)
      else Ok((w, ResultOf(w.txs[byKey.value].tx, true)))
    else
      match Create(w, cmd)
      case Err(e) => Err(e)
      case Ok(done) =>
        Ok((done.0, ResultOf(done.1, false)))
  }

  /** The insert clashes with a row that the lookups did not find. */
  ghost predicate Clashes(w: World, cmd: Command) {
    && ExternalFault(IdentOf(cmd, w.next)).None?
    && InsertTx(w.(next := w.next + 1), FreshTx(IdentOf(cmd, w.next))) == Err(Conflict)
  }

  /**
   * The rest of processIdempotently once its lookups found nothing, on whatever tables the insert then meets: after a
   * clash the key is looked up once more, if the database still answers within this transaction.
   */
  ghost function CreateOrRecover(w: World, cmd: Command, answers: bool): Processed {
    if Clashes(w, cmd) then
      var concurrent := FindKey(w.txs, cmd.providerID, cmd.key);
      if !answers || concurrent.None? then Err(Conflict)
      else if w.txs[concurrent.value].tx.ident.hash != Some(CanonicalPayload(cmd)) then Err(IdempotencyKeyReused)
      else Ok((w.(next := w.next + 1), ResultOf(w.txs[concurrent.value].tx, true)))
    else
      match Create(w, cmd)
      case Err(e) => Err(e)
      case Ok(done) => Ok((done.0, ResultOf(done.1, false)))
  }

  /** A clash is only recovered from when the key has become known; on the tables of the lookups it has not. */
  lemma NothingToRecover(w: World, cmd: Command, answers: bool)
    requires FindKey(w.txs, cmd.providerID, cmd.key).None?
    ensures CreateOrRecover(w, cmd, answers)
            == match Create(w, cmd)
               case Err(e) => Err(e)
               case Ok(done) => Ok((done.0, ResultOf(done.1, false)))
  {
    hide Dispatch;
  }

  ghost function Complete(p: Processed, k: InboxKey, now: Time): Processed {
    match p
    case Err(e) => Err(e)
    case Ok(done) => Ok((CompleteInbox(done.0, k, now), done.1))
  }

  /** Execute, with the broker's inbox record around it when the command came from a message. */
  ghost function Execute(w: World, cmd: Command): Processed {
    match cmd.inbox
    case None => Process(w, cmd)
    case Some(k) =>
      if k !in w.inbox then
        match InsertInbox(w, k, InboxRecord(CanonicalPayload(cmd), cmd.now, None))
        case Err(e) => Err(e)
        case Ok(w1) =>
          Complete(Process(w1, cmd), k, cmd.now)
      else if w.inbox[k].hash != CanonicalPayload(cmd) then Err(IdempotencyKeyReused)
      else if w.inbox[k].completedAt.Some? then
        match FindKey(w.txs, cmd.providerID, cmd.key)
        case None => Err(NotFound)
        case Some(id) => Ok((w, ResultOf(w.txs[id].tx, true)))
      else Complete(Process(w, cmd), k, cmd.now)
  }

  // ---- the pending-reference resolver ----

  datatype RetryPolicy = RetryPolicy(maxAttempts: int, maxAge: Time, baseBackoff: Time)

  /** One attempt on a snapshot `t` of a parked transaction; the flag says whether it was resolved. */
  ghost function Attempt(w: World, policy: RetryPolicy, t: Tx, now: Time): Result<(World, bool), Error> {
    match FindExternal(w.txs, t.ident.providerID, t.ident.reference)
    case None => RescheduleOrExpire(w, policy, t, now)
    case Some(target) => Resolved(Reverse(w, t, target, now))
  }

  function Resolved(r: Written): Result<(World, bool), Error> {
    match r
    case Err(e) => Err(e)
    case Ok(done) => Ok((done.0, true))
  }

  /** The reference is missing: give up at maxAge, otherwise try again one base backoff later. */
  function RescheduleOrExpire(w: World, policy: RetryPolicy, t: Tx, now: Time): Result<(World, bool), Error> {
    if now - t.ident.createdAt >= policy.maxAge then Resolved(Refuse(w, t, ReferenceNotFound, now))
    else Ok((RecordAttempt(w, t.ident.id, 1, now + policy.baseBackoff), false))
  }

  /**
   * How the commit of a database transaction ends: it took effect, and that was reported or the report was lost and
   * read as an error; or it did not take effect.
   */
  datatype CommitResult = Confirmed | Unheard | Undone {
    predicate Took() {
      !Undone?
    }
  }

  /** What a poll reports: how many it resolved and rescheduled, and the error that stopped it, if any. */
  datatype Polled = Polled(world: World, resolved: nat, rescheduled: nat, error: Option<Error>)

  /** A poll attempts its snapshots in order, each in its own database transaction, and stops at the first error. */
  ghost function Poll(w: World, policy: RetryPolicy, due: seq<Tx>, now: Time,
                      commits: Id -> CommitResult): Polled
    decreases |due|
  {
    if due == [] then Polled(w, 0, 0, None)
    else
      match Attempt(w, policy, due[0], now)
      case Err(e) => Polled(w, 0, 0, Some(e))
      case Ok(done) =>
        match commits(due[0].ident.id)
        case Undone => Polled(w, 0, 0, Some(CommitFailed))
        case Unheard => Polled(done.0, 0, 0, Some(CommitFailed))
        case Confirmed =>
          var rest := Poll(done.0, policy, due[1..], now, commits);
          if done.1 then rest.(resolved := rest.resolved + 1) else rest.(rescheduled := rest.rescheduled + 1)
  }

  // ---- opening a wallet ----

  datatype OpenCommand = OpenCommand(playerID: Id, initialBalance: Money, now: Time)

  datatype OpenResult = OpenResult(walletID: Id, balance: Money, version: int64)

  function Open(w: World, cmd: OpenCommand): Result<(World, OpenResult), Error> {
    var walletID := w.next;
    var row := WalletRow(walletID, cmd.playerID, cmd.initialBalance, 1, cmd.now, cmd.now);
    var result := OpenResult(walletID, cmd.initialBalance, 1);
    if walletID == NIL || cmd.playerID == NIL || cmd.initialBalance.minorUnits < 0 then Err(InvalidWallet)
    else
      match InsertWallet(w.(next := w.next + 1), row)
      case Err(e) => Err(e)
      case Ok(w1) =>
        if cmd.initialBalance.minorUnits == 0 then Ok((w1, result))
        else
          match CreditOpening(w1, walletID, cmd)
          case Err(e) => Err(e)
          case Ok(w2) =>
            Ok((w2, result))
  }

  function OpeningEntry(w: World, walletID: Id, openingID: Id, cmd: OpenCommand): Write {
    var amount := cmd.initialBalance;
    var zero := Money(0, amount.currency);
    match Ledger.New(w.next, walletID, openingID, Ledger.Credit, amount, zero, amount, cmd.now)
    case Err(e) => Err(e)
    case Ok(entry) =>
      InsertEntry(w.(next := w.next + 1), entry)
  }

  /** The opening transaction, its ledger entry from zero, and the two events. */
  function CreditOpening(w: World, walletID: Id, cmd: OpenCommand): Write {
    var amount := cmd.initialBalance;
    var t := OpeningTx(w.next, walletID, cmd.playerID, amount, cmd.now);
    if w.next == NIL then Err(InvalidTransaction)
    else
      match InsertTx(w.(next := w.next + 1), t)
      case Err(e) => Err(e)
      case Ok(w1) =>
        match OpeningEntry(w1, walletID, t.ident.id, cmd)
        case Err(e) => Err(e)
        case Ok(w2) =>
          Ok(OpeningEvents(w2, t, cmd))
  }

  function OpeningEvents(w: World, t: Tx, cmd: OpenCommand): World {
    var amount := cmd.initialBalance;
    var w1 := AppendEvent(w, ProcessedEvent(t.ident, t.resulting, cmd.now), cmd.now);
    AppendEvent(w1, BalanceChanged(t.ident.walletID, t.ident.id, Ledger.Credit, amount, Money(0, amount.currency),
                                   amount, 1), cmd.now)
  }
}
