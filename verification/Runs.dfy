/**
 * Serial runs. Every committed step changes the tables in one of six ways; the invariants are proved against this
 * classification instead of against the use cases.
 */
module Runs {
  import opened Prelude
  import opened Int64
  import opened MoneyDomain
  import opened WalletDomain
  import opened WagerDomain
  import opened Store
  import opened Engine
  import Ledger = LedgerDomain

  /** One database transaction of one use case; `commits` is whether its commit takes effect. */
  datatype Step =
    | OpenWallet(open: OpenCommand, commits: bool)
    | Submit(cmd: Command, commits: bool)
    | Resolve(id: Id, now: Time, commits: bool)

  const EMPTY: World := World(map[], map[], [], map[], [], 1)

  /** A resolver attempt works on the stored row, provided that row is due. */
  ghost function After(w: World, policy: RetryPolicy, step: Step): World {
    match step
    case OpenWallet(cmd, commits) =>
      var r := Open(w, cmd);
      if r.Ok? && commits then r.value.0 else w
    case Submit(cmd, commits) =>
      var r := Execute(w, cmd);
      if r.Ok? && commits then r.value.0 else w
    case Resolve(id, now, commits) =>
      if id !in w.txs || !Due(w.txs[id], now) then w
      else
        var r := Attempt(w, policy, w.txs[id].tx, now);
        if r.Ok? && commits then r.value.0 else w
  }

  /** The tables after a run that starts from an empty database. */
  ghost function Run(policy: RetryPolicy, steps: seq<Step>): World {
    if steps == [] then EMPTY
    else After(Run(policy, steps[..|steps| - 1]), policy, steps[|steps| - 1])
  }

  lemma RunAppends(policy: RetryPolicy, steps: seq<Step>, step: Step)
    ensures Run(policy, steps + [step]) == After(Run(policy, steps), policy, step)
  {
    hide After;
    assert (steps + [step])[..|steps|] == steps;
  }

  // ---- the six ways to change the tables ----

  datatype Booking = Booking(tx: Tx, target: Option<Id>, direction: Ledger.Direction, row: WalletRow,
                             entry: Ledger.Entry, version: int64)

  datatype Change =
    | Quiet
    | Rescheduled(id: Id)
    | Noted(tx: Tx)
    | Booked(b: Booking)
    | Opened(row: WalletRow)
    | Credited(row: WalletRow, tx: Tx, entry: Ledger.Entry)

  /** The rows are as before, but for `t`, whose row now holds it; its retry columns stay, or start out unset. */
  ghost predicate Wrote(txs: map<Id, TxRow>, txs': map<Id, TxRow>, t: Tx) {
    && txs'.Keys == txs.Keys + {t.ident.id}
    && txs'[t.ident.id] == (if t.ident.id in txs then txs[t.ident.id].(tx := t) else TxRow(t, 0, None))
    && forall id :: id in txs && id != t.ident.id ==> txs'[id] == txs[id]
  }

  /** `p` may be written: it is new and clashes with nothing, or it is parked. */
  ghost predicate Writable(w: World, p: Ident) {
    || (p.id in w.txs && w.txs[p.id].tx.status.PendingReference? && w.txs[p.id].tx.ident == p)
    || (&& p.id == w.next && p.walletID in w.wallets && ExternalFault(p) == None
        && forall id :: id in w.txs ==> !SameExternal(w.txs[id].tx, FreshTx(p)) && !SameKey(w.txs[id].tx, FreshTx(p)))
  }

  /** A transaction that ends a step without moving money. */
  predicate Unmoved(t: Tx) {
    match t.status
    case Rejected => t.failure != NoCode && t.resulting == None && t.resolved == None
    case PendingReference => RequiresReference(t.ident.kind) && t.failure == NoCode && t.resulting == None
                             && t.resolved == None && t.ident.reference != t.ident.externalID
    case Processed => t.ident.kind.Loss? && t.failure == NoCode && t.resulting.Some? && t.resolved == None
    case _ => false
  }

  predicate Moves(k: Kind) {
    k.Bet? || k.Win? || RequiresReference(k)
  }

  ghost predicate Unreversed(txs: map<Id, TxRow>, target: Id) {
    forall id :: id in txs ==> !Reverses(txs[id].tx, target)
  }

  /** What a movement must satisfy besides the arithmetic: the right direction and, for a reversal, a good target. */
  ghost predicate Justified(txs: map<Id, TxRow>, b: Booking) {
    var p := b.tx.ident;
    && (p.kind.Bet? ==> b.direction.Debit?)
    && (p.kind.Win? ==> b.direction.Credit?)
    && (RequiresReference(p.kind) ==>
          && b.tx.resolved.Some? && b.tx.resolved.value in txs && b.tx.resolved.value != p.id
          && HasExternal(txs[b.tx.resolved.value].tx, p.providerID, p.reference)
          && ReferenceFault(p, txs[b.tx.resolved.value].tx) == NoCode
          && Unreversed(txs, b.tx.resolved.value)
          && b.direction == ReversalDirection(txs[b.tx.resolved.value].tx.ident.kind))
    && (p.kind.Bet? ==> b.tx.resolved == None)
  }

  /** The movement of a wallet by the signed amount, with its entry. */
  predicate Carried(before: WalletRow, b: Booking) {
    var e := b.entry;
    && b.row == before.(balance := e.after, version := b.version, updatedAt := b.row.updatedAt)
    && b.version as int == before.version + 1
    && e.walletID == before.id && e.transactionID == b.tx.ident.id && e.direction == b.direction
    && e.money == b.tx.ident.money && e.before == before.balance
    && e.after.currency == e.money.currency == e.before.currency
    && e.money.minorUnits > 0 && e.after.minorUnits >= 0
    && e.after.minorUnits == e.before.minorUnits + Ledger.Signed(e.direction, e.money.minorUnits)
  }

  predicate Announces(rec: OutboxRecord, e: Ledger.Entry, version: int64) {
    rec.event == BalanceChanged(e.walletID, e.transactionID, e.direction, e.money, e.before, e.after, version)
  }

  predicate Unscheduled(rec: OutboxRecord) {
    rec.attempts == 0 && rec.publishedAt == None && rec.nextAttempt == rec.occurredAt
  }

  /** Two records announce a movement: the transaction, then the balance. */
  predicate AnnouncedMove(w: World, w': World, e: Ledger.Entry, version: int64) {
    && |w'.outbox| == |w.outbox| + 2 && w'.outbox[..|w.outbox|] == w.outbox
    && (var first, second := w'.outbox[|w.outbox|], w'.outbox[|w.outbox| + 1];
        && !first.event.BalanceChanged? && Announces(second, e, version)
        && Unscheduled(first) && Unscheduled(second)
        && w.next <= first.id < second.id < w'.next)
  }

  predicate AnnouncedNote(w: World, w': World) {
    && |w'.outbox| == |w.outbox| + 1 && w'.outbox[..|w.outbox|] == w.outbox
    && (var rec := w'.outbox[|w.outbox|];
        !rec.event.BalanceChanged? && Unscheduled(rec) && w.next <= rec.id < w'.next)
  }

  /** The event says that the reversal waits, and for what. */
  predicate TellsWaiting(e: Event, p: Ident) {
    && e.TransactionParked? && e.transactionID == p.id && e.providerID == p.providerID
    && e.externalID == p.externalID && e.walletID == p.walletID && e.reference == p.reference
  }

  /** The event says what became of the transaction; the balance in it may be in the wallet's own currency. */
  predicate Tells(e: Event, t: Tx) {
    var p := t.ident;
    match t.status
    case Processed =>
      && e.TransactionProcessed? && e.transactionID == p.id && e.providerID == p.providerID
      && e.externalID == p.externalID && e.walletID == p.walletID && e.playerID == p.playerID && e.kind == p.kind
      && e.money == p.money && e.processedAt == t.updatedAt && e.resulting.Some? && t.resulting.Some?
      && e.resulting.value.minorUnits == t.resulting.value.minorUnits
    case Rejected =>
      && e.TransactionRejected? && e.transactionID == p.id && e.providerID == p.providerID
      && e.externalID == p.externalID && e.walletID == p.walletID && e.playerID == p.playerID && e.kind == p.kind
      && e.code == t.failure && e.rejectedAt == t.updatedAt
    case PendingReference => TellsWaiting(e, p)
    case _ => false
  }

  /** The first event a step appends tells of its transaction. */
  predicate Told(w: World, w': World, t: Tx) {
    |w'.outbox| > |w.outbox| && Tells(w'.outbox[|w.outbox|].event, t)
  }

  /** The first event a step appends tells this balance, currency included. */
  predicate TellsBalance(w: World, w': World, balance: Money) {
    && |w'.outbox| > |w.outbox| && w'.outbox[|w.outbox|].event.TransactionProcessed?
    && w'.outbox[|w.outbox|].event.resulting == Some(balance)
  }

  /** What a transaction that moves nothing records of its wallet is the wallet's balance. */
  predicate SawBalance(w: World, w': World, t: Tx) {
    t.status.Processed? ==>
      && t.ident.walletID in w.wallets && t.resulting.Some?
      && t.resulting.value.minorUnits == w.wallets[t.ident.walletID].balance.minorUnits
      && TellsBalance(w, w', w.wallets[t.ident.walletID].balance)
  }

  /** A note was written: only the row of `t` changed, and one event announces it. */
  ghost predicate Notes(w: World, w': World, t: Tx) {
    && w'.wallets == w.wallets && w'.ledger == w.ledger && AnnouncedNote(w, w')
    && Wrote(w.txs, w'.txs, t) && Unmoved(t) && Told(w, w', t)
  }

  /** As written, and what it says of the balance is true. */
  ghost predicate Recorded(w: World, w': World, t: Tx) {
    Notes(w, w', t) && SawBalance(w, w', t)
  }

  /** The booking was carried out: row, wallet, entry and events. */
  ghost predicate Moved(w: World, w': World, b: Booking) {
    && Wrote(w.txs, w'.txs, b.tx) && AnnouncedMove(w, w', b.entry, b.version) && Told(w, w', b.tx)
    && b.tx.status.Processed? && b.tx.failure == NoCode && Moves(b.tx.ident.kind)
    && b.tx.resulting == Some(b.entry.after) && TellsBalance(w, w', b.entry.after)
    && b.tx.ident.walletID in w.wallets && Carried(w.wallets[b.tx.ident.walletID], b)
    && w'.wallets == w.wallets[b.tx.ident.walletID := b.row]
    && w'.ledger == w.ledger + [b.entry] && w.next <= b.entry.id < w'.next
  }

  /** No wallet of the row's player is in the row's currency yet. */
  ghost predicate Unowned(wallets: map<Id, WalletRow>, row: WalletRow) {
    forall id :: id in wallets ==> !SameOwner(wallets[id], row)
  }

  predicate SameOwner(a: WalletRow, b: WalletRow) {
    a.playerID == b.playerID && a.balance.currency == b.balance.currency
  }

  /** The shape of each change, leaving aside whether a movement was called for. */
  ghost predicate Alters(w: World, w': World, c: Change) {
    match c
    case Quiet =>
      w'.wallets == w.wallets && w'.txs == w.txs && w'.ledger == w.ledger && w'.outbox == w.outbox && w'.next == w.next
    case Rescheduled(id) =>
      && w'.wallets == w.wallets && w'.ledger == w.ledger && w'.outbox == w.outbox && w'.next == w.next
      && id in w.txs && w.txs[id].tx.status.PendingReference?
      && w'.txs.Keys == w.txs.Keys && w'.txs[id].tx == w.txs[id].tx
      && forall j :: j in w.txs && j != id ==> w'.txs[j] == w.txs[j]
    case Noted(t) =>
      Writable(w, t.ident) && Recorded(w, w', t) && (t.ident.id in w.txs ==> IsTerminal(t.status))
    case Booked(b) =>
      Writable(w, b.tx.ident) && Moved(w, w', b)
    case Opened(row) =>
      && w'.txs == w.txs && w'.ledger == w.ledger && w'.outbox == w.outbox && w'.next > w.next
      && row.id == w.next && row.version == 1 && row.balance.minorUnits == 0
      && w'.wallets == w.wallets[row.id := row] && Unowned(w.wallets, row)
    case Credited(row, t, e) =>
      && row.id == w.next && row.version == 1 && row.balance.minorUnits > 0
      && w'.wallets == w.wallets[row.id := row] && Unowned(w.wallets, row)
      && t == OpeningTx(w.next + 1, row.id, row.playerID, row.balance, t.ident.createdAt)
      && t.ident.id < w'.next && Wrote(w.txs, w'.txs, t)
      && w'.ledger == w.ledger + [e] && w.next < e.id < w'.next
      && e == Ledger.Entry(e.id, row.id, t.ident.id, Ledger.Credit, row.balance, Money(0, row.balance.currency),
                           row.balance, e.createdAt)
      && AnnouncedMove(w, w', e, 1) && Told(w, w', t) && TellsBalance(w, w', row.balance)
  }

  ghost predicate Changes(w: World, w': World, c: Change) {
    Alters(w, w', c) && (c.Booked? ==> Justified(w.txs, c.b))
  }

  // ---- writing over rows that have ended ----

  /** `p` is new and clashes with nothing, or is the identity of a submitted row, ended or not. */
  ghost predicate Rewritable(w: World, p: Ident) {
    && ExternalFault(p) == None
    && (|| (p.id in w.txs && w.txs[p.id].tx.ident == p)
        || (&& p.id == w.next && p.walletID in w.wallets
            && forall id :: id in w.txs ==>
                              !SameExternal(w.txs[id].tx, FreshTx(p)) && !SameKey(w.txs[id].tx, FreshTx(p))))
  }

  /**
   * The six changes as they look when a step may also work on something it read before: an ended row can be written
   * again, and a balance told can be an old one. Everything that concerns wallets and ledger stays the same.
   */
  ghost predicate Rewrites(w: World, w': World, c: Change) {
    match c
    case Rescheduled(id) =>
      && w'.wallets == w.wallets && w'.ledger == w.ledger && w'.outbox == w.outbox && w'.next == w.next
      && id in w.txs && w'.txs.Keys == w.txs.Keys && w'.txs[id].tx == w.txs[id].tx
      && forall j :: j in w.txs && j != id ==> w'.txs[j] == w.txs[j]
    case Noted(t) => Rewritable(w, t.ident) && Notes(w, w', t)
    case Booked(b) => Rewritable(w, b.tx.ident) && Moved(w, w', b)
    case _ => Alters(w, w', c)
  }

  /** Whatever writes something new uses up identifiers. */
  lemma SupplyRises(w: World, w': World, c: Change)
    requires Rewrites(w, w', c)
    ensures if c.Quiet? || c.Rescheduled? then w'.next == w.next else w'.next > w.next
  {
    hide Wrote, Rewritable, Carried, Unmoved;
  }

  // ---- what is needed of the tables for the classification ----

  predicate RowSound(t: Tx) {
    if t.ident.kind.Opening? then
      t == OpeningTx(t.ident.id, t.ident.walletID, t.ident.playerID, t.ident.money, t.ident.createdAt)
    else
      && ExternalFault(t.ident) == None
      && (Unmoved(t) || (t.status.Processed? && Moves(t.ident.kind) && t.failure == NoCode && t.resulting.Some?))
  }

  ghost predicate Sound(w: World) {
    && w.next >= 1
    && KeyedByID(w.txs) && UniqueKeys(w.txs)
    && (forall id :: id in w.txs ==> id < w.next && w.txs[id].tx.ident.walletID in w.wallets && RowSound(w.txs[id].tx))
    && (forall id :: id in w.wallets ==> w.wallets[id].id == id && 0 < id < w.next)
  }

  /** The supply is ahead of every row. */
  lemma UnusedIdentifier(w: World, id: Id)
    requires Sound(w) && id >= w.next
    ensures id !in w.txs
  {
    hide UniqueKeys, RowSound;
  }

  lemma WritableIsRewritable(w: World, p: Ident)
    requires Sound(w) && Writable(w, p)
    ensures Rewritable(w, p)
  {
    hide UniqueKeys;
    assert p.id in w.txs && w.txs[p.id].tx.status.PendingReference? ==> RowSound(w.txs[p.id].tx);
  }

  lemma AlterationRewrites(w: World, w': World, c: Change)
    requires Sound(w) && Alters(w, w', c)
    ensures Rewrites(w, w', c)
  {
    hide Sound, Writable, Rewritable, Notes, Moved, Wrote, Unowned, AnnouncedMove, Told;
    match c
    case Noted(t) => WritableIsRewritable(w, t.ident);
    case Booked(b) => WritableIsRewritable(w, b.tx.ident);
    case _ =>
  }

  // ---- classification, statement group by statement group ----

  /** `t` is an open aggregate in memory, for a row of the tables. */
  ghost predicate InMemory(w: World, t: Tx) {
    && t.ident.id in w.txs && w.txs[t.ident.id].tx.ident == t.ident
    && t.resolved == None && t.resulting == None && t.failure == NoCode && !IsTerminal(t.status)
  }

  /** The row is open too. */
  ghost predicate InHand(w: World, t: Tx) {
    InMemory(w, t) && !IsTerminal(w.txs[t.ident.id].tx.status)
  }

  /** A parked row is an open reversal. */
  lemma ParkedIsOpen(w: World, id: Id)
    requires Sound(w) && id in w.txs && w.txs[id].tx.status.PendingReference?
    ensures w.txs[id].tx.ident.id == id && InHand(w, w.txs[id].tx) && RequiresReference(w.txs[id].tx.ident.kind)
  {
    hide UniqueKeys;
    assert RowSound(w.txs[id].tx);
  }

  lemma RefuseEffect(w: World, t: Tx, code: FailureCode, now: Time)
    requires InMemory(w, t) && code != NoCode
    ensures var r := Refuse(w, t, code, now);
            && r.Ok? && r.value.1 == RejectedTx(t, code, now)
            && Recorded(w, r.value.0, r.value.1) && r.value.0.inbox == w.inbox
            && Persisted(r.value.1) == r.value.1
  {
  }

  lemma ParkEffect(w: World, t: Tx, now: Time)
    requires InHand(w, t) && RequiresReference(t.ident.kind) && t.ident.reference != t.ident.externalID
    ensures var r := Park(w, t, now);
            && r.Ok? && r.value.1 == ParkedTx(t, now)
            && Recorded(w, r.value.0, r.value.1) && r.value.0.inbox == w.inbox
            && Persisted(r.value.1) == r.value.1
  {
  }

  lemma FinishEffect(w: World, t: Tx, resulting: Money, now: Time)
    requires t.ident.id in w.txs && w.txs[t.ident.id].tx.ident == t.ident
    requires t.resolved.Some? ==> t.resolved.value in w.txs
    ensures var r := Finish(w, t, resulting, now);
            && r.Ok? && r.value.1 == ProcessedTx(t, resulting, now)
            && r.value.0.wallets == w.wallets && r.value.0.ledger == w.ledger && AnnouncedNote(w, r.value.0)
            && Wrote(w.txs, r.value.0.txs, Persisted(r.value.1)) && r.value.0.inbox == w.inbox
            && Told(w, r.value.0, Persisted(r.value.1)) && TellsBalance(w, r.value.0, resulting)
  {
  }

  /** A successful debit or credit moves the balance by the signed amount and raises the version. */
  lemma MoveEffect(row: WalletRow, direction: Ledger.Direction, amount: Money, now: Time)
    requires MoveOf(row, direction, amount, now).Ok?
    ensures var (row', m) := MoveOf(row, direction, amount, now).value;
            && row' == row.(balance := m.after, version := m.version, updatedAt := now)
            && m.before == row.balance && m.version == Wrap(row.version + 1)
            && amount.minorUnits > 0 && amount.currency == m.before.currency == m.after.currency
            && m.after.minorUnits == m.before.minorUnits + Ledger.Signed(direction, amount.minorUnits)
  {
  }

  lemma BookEffect(w: World, p: Ident, row: WalletRow, row': WalletRow, m: Movement, direction: Ledger.Direction,
                   now: Time)
    requires row.id in w.wallets && w.wallets[row.id] == row
    requires MoveOf(row, direction, p.money, now) == Ok((row', m))
    ensures var r := Book(w, p, row', row.version, m, direction, now);
            r.Ok? ==>
              && r.value == w.(wallets := w.wallets[row.id := row'], ledger := r.value.ledger, next := w.next + 1)
              && r.value.ledger
                 == w.ledger + [Ledger.Entry(w.next, row.id, p.id, direction, p.money, m.before, m.after, now)]
              && m.version as int == row.version + 1 && m.after.minorUnits >= 0
  {
    MoveEffect(row, direction, p.money, now);
    Ledger.NewIsExact(w.next, row.id, p.id, direction, p.money, m.before, m.after, now);
    WrapNearby(row.version + 1);
  }

  lemma CommitEffect(w: World, t: Tx, row: WalletRow, row': WalletRow, m: Movement, direction: Ledger.Direction,
                     now: Time)
    returns (b: Booking)
    requires t.ident.id in w.txs && w.txs[t.ident.id].tx.ident == t.ident && t.failure == NoCode && Moves(t.ident.kind)
    requires t.resolved.Some? ==> t.resolved.value in w.txs
    requires row.id in w.wallets && w.wallets[row.id] == row && t.ident.walletID == row.id
    requires MoveOf(row, direction, t.ident.money, now) == Ok((row', m))
    ensures var r := Commit(w, t, row', row.version, m, direction, now);
            r.Ok? ==> Moved(w, r.value.0, b) && b.tx == r.value.1 == ProcessedTx(t, m.after, now)
                      && b.direction == direction && r.value.0.inbox == w.inbox
  {
    BookEffect(w, t.ident, row, row', m, direction, now);
    MoveEffect(row, direction, t.ident.money, now);
    hide Book, Finish, MoveOf, Wrote, Told, AnnouncedNote, AnnouncedMove, AppendEvent;
    var entry := Ledger.Entry(w.next, row.id, t.ident.id, direction, t.ident.money, m.before, m.after, now);
    var t' := ProcessedTx(t, m.after, now);
    b := Booking(t', t.resolved, direction, row', entry, m.version);
    var r := Commit(w, t, row', row.version, m, direction, now);
    if r.Ok? {
      var w1 := Book(w, t.ident, row', row.version, m, direction, now).value;
      FinishEffect(w1, t, m.after, now);
      assert Persisted(t') == t';
      var w2 := Finish(w1, t, m.after, now).value.0;
      MovementAnnounced(w, w1, w2, t', entry, m.version, now);
    }
  }

  /** A balance change announced after a note about the transaction announces a movement. */
  lemma MovementAnnounced(w: World, w1: World, w2: World, t: Tx, e: Ledger.Entry, version: int64, now: Time)
    requires w1.outbox == w.outbox && w1.next >= w.next && AnnouncedNote(w1, w2) && Told(w1, w2, t)
    ensures var event := BalanceChanged(e.walletID, e.transactionID, e.direction, e.money, e.before, e.after, version);
            var w3 := AppendEvent(w2, event, now);
            && AnnouncedMove(w, w3, e, version) && Told(w, w3, t)
            && w3 == w2.(outbox := w3.outbox, next := w3.next) && w3.next > w2.next
  {
    hide Tells;
    var event := BalanceChanged(e.walletID, e.transactionID, e.direction, e.money, e.before, e.after, version);
    assert AppendEvent(w2, event, now).outbox[..|w.outbox|] == w2.outbox[..|w.outbox|];
  }

  /** A successful step recorded a note about `t`, or justified and carried out the booking `b`. */
  ghost predicate Explained(w: World, t: Tx, r: Written, b: Booking) {
    r.Ok? ==>
      && r.value.0.inbox == w.inbox && r.value.1.ident == t.ident
      && (Recorded(w, r.value.0, Persisted(r.value.1))
          || (Moved(w, r.value.0, b) && b.tx == r.value.1 && Justified(w.txs, b)))
  }

  /** A settlement whose direction and reference are justified either moves the wallet or is refused for its balance. */
  lemma SettleEffect(w: World, t: Tx, reference: Option<Id>, direction: Ledger.Direction, code: FailureCode, now: Time)
    returns (b: Booking)
    requires InHand(w, t) && code != NoCode && Moves(t.ident.kind)
    requires forall id :: id in w.wallets ==> w.wallets[id].id == id
    requires reference.Some? ==> reference.value in w.txs
    requires forall b: Booking :: b.tx.ident == t.ident && b.direction == direction && b.tx.resolved == reference ==>
                                    Justified(w.txs, b)
    ensures var r := Settle(w, t, reference, direction, code, now);
            Explained(w, t, r, b) && (r.Ok? ==> IsTerminal(r.value.1.status))
  {
    b :| true;
    if t.ident.walletID in w.wallets {
      var row := w.wallets[t.ident.walletID];
      match MoveOf(row, direction, t.ident.money, now)
      case Err(InsufficientBalance) => RefuseEffect(w, t, code, now);
      case Err(_) =>
      case Ok(moved) => b := CommitEffect(w, Attach(t, reference), row, moved.0, moved.1, direction, now);
    }
  }

  lemma NoReversals(txs: map<Id, TxRow>, target: Id)
    ensures CountReversals(txs, target, Refund) + CountReversals(txs, target, Rollback) == 0
       <==> Unreversed(txs, target)
  {
    var refunds := set id | id in txs && txs[id].tx.resolved == Some(target) && txs[id].tx.ident.kind == Refund
                            && txs[id].tx.status.Processed?;
    var rollbacks := set id | id in txs && txs[id].tx.resolved == Some(target) && txs[id].tx.ident.kind == Rollback
                              && txs[id].tx.status.Processed?;
    if Unreversed(txs, target) {
      assert refunds == {} && rollbacks == {};
    } else {
      var id :| id in txs && Reverses(txs[id].tx, target);
      assert id in refunds || id in rollbacks;
    }
  }

  /** A row that is not processed reverses nothing. */
  lemma SameReversals(w: World, w1: World, p: Ident, target: Id)
    requires p.id !in w.txs && w1.txs == w.txs[p.id := TxRow(FreshTx(p), 0, None)]
    ensures Unreversed(w1.txs, target) <==> Unreversed(w.txs, target)
  {
    if Unreversed(w1.txs, target) {
      forall id | id in w.txs
        ensures !Reverses(w.txs[id].tx, target)
      {
        assert w1.txs[id] == w.txs[id];
      }
    }
  }

  /** An external identifier picks one row. */
  lemma SoundLookup(w: World, provider: string, external: string, id: Id)
    requires Sound(w) && id in w.txs && HasExternal(w.txs[id].tx, provider, external)
    ensures FindExternal(w.txs, provider, external) == Some(id)
  {
    hide RowSound;
    assert forall j :: j in w.txs && j != id ==> !SameExternal(w.txs[j].tx, w.txs[id].tx);
  }

  lemma ReverseEffect(w: World, t: Tx, target: Id, now: Time) returns (b: Booking)
    requires InHand(w, t) && RequiresReference(t.ident.kind) && target in w.txs
    requires HasExternal(w.txs[target].tx, t.ident.providerID, t.ident.reference)
    requires forall id :: id in w.wallets ==> w.wallets[id].id == id
    ensures var r := Reverse(w, t, target, now);
            Explained(w, t, r, b) && (r.Ok? ==> IsTerminal(r.value.1.status))
  {
    b :| true;
    var ref := w.txs[target].tx;
    var code := ReferenceFault(t.ident, ref);
    NoReversals(w.txs, target);
    if code != NoCode {
      RefuseEffect(w, t, code, now);
    } else if !Unreversed(w.txs, target) {
      RefuseEffect(w, t, DuplicateReversal, now);
    } else {
      b := SettleEffect(w, t, Some(target), ReversalDirection(ref.ident.kind), ReversalExceedsBalance, now);
    }
  }

  lemma LossEffect(w: World, t: Tx, now: Time)
    requires InHand(w, t) && t.ident.kind.Loss?
    ensures var r := Observe(w, t, now);
            r.Ok? ==> r.value.0.inbox == w.inbox && r.value.1.ident == t.ident
                      && Recorded(w, r.value.0, Persisted(r.value.1))
  {
    if t.ident.walletID in w.wallets {
      FinishEffect(w, t, w.wallets[t.ident.walletID].balance, now);
    }
  }

  /** The kind switch, for every kind a provider can submit. */
  lemma DispatchEffect(w: World, t: Tx, now: Time) returns (b: Booking)
    requires InHand(w, t) && ExternalFault(t.ident) == None
    requires HasExternal(w.txs[t.ident.id].tx, t.ident.providerID, t.ident.externalID)
    requires forall id :: id in w.wallets ==> w.wallets[id].id == id
    ensures Explained(w, t, Dispatch(w, t, now), b)
  {
    b :| true;
    match t.ident.kind
    case Bet => b := SettleEffect(w, t, None, Ledger.Debit, InsufficientFunds, now);
    case Win =>
      var reference := FindExternal(w.txs, t.ident.providerID, t.ident.reference);
      b := SettleEffect(w, t, reference, Ledger.Credit, InsufficientFunds, now);
    case Loss => LossEffect(w, t, now);
    case _ =>
      match FindExternal(w.txs, t.ident.providerID, t.ident.reference)
      case None => ParkEffect(w, t, now);
      case Some(target) => b := ReverseEffect(w, t, target, now);
  }

  /** What was written over a freshly inserted row was written over the tables before the insertion. */
  lemma LiftWrote(txs: map<Id, TxRow>, row: TxRow, txs': map<Id, TxRow>, t: Tx)
    requires row.tx.ident.id !in txs && Wrote(txs[row.tx.ident.id := row], txs', t) && t.ident.id == row.tx.ident.id
    requires row.attempts == 0 && row.retryAt.None?
    ensures Wrote(txs, txs', t)
  {
  }

  lemma LiftJustified(txs: map<Id, TxRow>, row: TxRow, b: Booking)
    requires row.tx.ident.id == b.tx.ident.id && b.tx.ident.id !in txs && Justified(txs[row.tx.ident.id := row], b)
    ensures Justified(txs, b)
  {
    var txs1 := txs[row.tx.ident.id := row];
    if RequiresReference(b.tx.ident.kind) {
      forall id | id in txs
        ensures !Reverses(txs[id].tx, b.tx.resolved.value)
      {
        assert txs1[id] == txs[id];
      }
    }
  }

  predicate About(c: Change, id: Id) {
    match c
    case Rescheduled(i) => i == id
    case Noted(t) => t.ident.id == id
    case Booked(b) => b.tx.ident.id == id
    case _ => false
  }

  /** The change left `t` in the tables, as far as the columns can hold it. */
  predicate Leaves(c: Change, t: Tx) {
    c == Noted(Persisted(t)) || (c.Booked? && c.b.tx == t)
  }

  /** A step explained from the tables with the new row in them is a change of the tables before the insertion. */
  lemma LiftExplained(w: World, p: Ident, w1: World, r: Written, b: Booking)
    requires p.id == w.next && p.id !in w.txs && Writable(w, p)
    requires w1 == w.(txs := w.txs[p.id := TxRow(FreshTx(p), 0, None)], next := w.next + 1)
    requires r.Ok? && Explained(w1, FreshTx(p), r, b)
    ensures exists c :: Changes(w, r.value.0, c) && Leaves(c, r.value.1)
    ensures r.value.0.inbox == w.inbox && r.value.1.ident == p
  {
    var row := TxRow(FreshTx(p), 0, None);
    var t := Persisted(r.value.1);
    if Recorded(w1, r.value.0, t) {
      LiftWrote(w.txs, row, r.value.0.txs, t);
      assert Changes(w, r.value.0, Noted(t));
    } else {
      LiftWrote(w.txs, row, r.value.0.txs, b.tx);
      LiftJustified(w.txs, row, b);
      assert Changes(w, r.value.0, Booked(b));
    }
  }

  /** A row that is accepted for insertion is new, clashes with nothing and changes nothing else. */
  lemma InsertEffect(w: World, p: Ident)
    requires Sound(w) && p.id == w.next && ExternalFault(p) == None
    ensures var r := InsertTx(w.(next := w.next + 1), FreshTx(p));
            r.Ok? ==> && r.value == w.(txs := w.txs[p.id := TxRow(FreshTx(p), 0, None)], next := w.next + 1)
                      && p.id !in w.txs && Writable(w, p)
  {
  }

  lemma CreateEffect(w: World, cmd: Command)
    requires Sound(w) && Create(w, cmd).Ok?
    ensures var (w', t) := Create(w, cmd).value;
            && (exists c :: Changes(w, w', c) && Leaves(c, t))
            && w'.inbox == w.inbox && t.ident == IdentOf(cmd, w.next)
  {
    var p := IdentOf(cmd, w.next);
    hide Dispatch, Changes;
    InsertEffect(w, p);
    var w1 := InsertTx(w.(next := w.next + 1), FreshTx(p)).value;
    var b := DispatchEffect(w1, FreshTx(p), cmd.now);
    LiftExplained(w, p, w1, Dispatch(w1, FreshTx(p), cmd.now), b);
  }

  lemma RescheduleEffect(w: World, policy: RetryPolicy, id: Id, now: Time)
    requires Sound(w) && id in w.txs && w.txs[id].tx.status.PendingReference?
    requires RescheduleOrExpire(w, policy, w.txs[id].tx, now).Ok?
    ensures var (w', resolved) := RescheduleOrExpire(w, policy, w.txs[id].tx, now).value;
            && (exists c :: Changes(w, w', c) && About(c, id) && (c.Rescheduled? <==> !resolved))
            && w'.inbox == w.inbox
  {
    hide Sound, Refuse, Changes, Recorded;
    var t := w.txs[id].tx;
    ParkedIsOpen(w, id);
    if now - t.ident.createdAt >= policy.maxAge {
      var b: Booking :| true;
      RefuseEffect(w, t, ReferenceNotFound, now);
      ParkedChange(w, id, Refuse(w, t, ReferenceNotFound, now), b);
    } else {
      PutOffIsChange(w, id, 1, now + policy.baseBackoff);
    }
  }

  lemma PutOffIsChange(w: World, id: Id, attempts: nat, retryAt: Time)
    requires id in w.txs && w.txs[id].tx.status.PendingReference?
    ensures var w' := RecordAttempt(w, id, attempts, retryAt);
            Changes(w, w', Rescheduled(id)) && w'.inbox == w.inbox
  {
  }

  /** An attempt leaves the parked row waiting, or ends it by a refusal or a justified movement. */
  lemma AttemptEffect(w: World, policy: RetryPolicy, id: Id, now: Time)
    requires Sound(w) && id in w.txs && w.txs[id].tx.status.PendingReference?
    requires Attempt(w, policy, w.txs[id].tx, now).Ok?
    ensures var (w', resolved) := Attempt(w, policy, w.txs[id].tx, now).value;
            && (exists c :: Changes(w, w', c) && About(c, id) && (c.Rescheduled? <==> !resolved))
            && w'.inbox == w.inbox
  {
    hide Reverse, RescheduleOrExpire, Changes;
    var t := w.txs[id].tx;
    match FindExternal(w.txs, t.ident.providerID, t.ident.reference)
    case Some(target) => ReverseParkedEffect(w, id, target, now);
    case None => RescheduleEffect(w, policy, id, now);
  }

  /** What explains a step on a parked row is a change about that row. */
  lemma ParkedChange(w: World, id: Id, r: Written, b: Booking)
    requires Sound(w) && id in w.txs && w.txs[id].tx.status.PendingReference?
    requires r.Ok? && Explained(w, w.txs[id].tx, r, b) && IsTerminal(r.value.1.status)
    ensures exists c :: Changes(w, r.value.0, c) && About(c, id) && !c.Rescheduled?
  {
    hide Sound, Changes, Recorded, Moved, Justified, InHand;
    ParkedIsOpen(w, id);
    var w', t := r.value.0, Persisted(r.value.1);
    if Recorded(w, w', t) {
      NoteIsChange(w, w', t);
      assert About(Noted(t), id);
    } else {
      BookingIsChange(w, w', b);
      assert About(Booked(b), id);
    }
  }

  lemma NoteIsChange(w: World, w': World, t: Tx)
    requires var id := t.ident.id;
             id in w.txs && w.txs[id].tx.status.PendingReference? && w.txs[id].tx.ident == t.ident
    requires Recorded(w, w', t) && IsTerminal(t.status)
    ensures Changes(w, w', Noted(t))
  {
    hide Recorded;
  }

  lemma BookingIsChange(w: World, w': World, b: Booking)
    requires var id := b.tx.ident.id;
             id in w.txs && w.txs[id].tx.status.PendingReference? && w.txs[id].tx.ident == b.tx.ident
    requires Moved(w, w', b) && Justified(w.txs, b)
    ensures Changes(w, w', Booked(b))
  {
    hide Moved, Justified;
  }

  lemma ReverseParkedEffect(w: World, id: Id, target: Id, now: Time)
    requires Sound(w) && id in w.txs && w.txs[id].tx.status.PendingReference? && target in w.txs
    requires HasExternal(w.txs[target].tx, w.txs[id].tx.ident.providerID, w.txs[id].tx.ident.reference)
    requires Reverse(w, w.txs[id].tx, target, now).Ok?
    ensures var w' := Reverse(w, w.txs[id].tx, target, now).value.0;
            && (exists c :: Changes(w, w', c) && About(c, id) && !c.Rescheduled?)
            && w'.inbox == w.inbox
  {
    hide Reverse, Changes;
    var b := ReverseEffect(w, w.txs[id].tx, target, now);
    ParkedChange(w, id, Reverse(w, w.txs[id].tx, target, now), b);
  }

  lemma InsertWalletEffect(w: World, row: WalletRow)
    ensures var r := InsertWallet(w.(next := w.next + 1), row);
            r.Ok? ==> r.value == w.(next := w.next + 1, wallets := w.wallets[row.id := row]) && Unowned(w.wallets, row)
  {
  }

  lemma OpenedEffect(w: World, row: WalletRow)
    requires Sound(w) && row.id == w.next && row.version == 1 && row.balance.minorUnits == 0 && Unowned(w.wallets, row)
    ensures Changes(w, w.(next := w.next + 1, wallets := w.wallets[row.id := row]), Opened(row))
  {
  }

  lemma OpenEffect(w: World, cmd: OpenCommand)
    requires Sound(w) && Open(w, cmd).Ok?
    ensures var w' := Open(w, cmd).value.0;
            && (exists c :: Changes(w, w', c) && (c.Opened? || c.Credited?))
            && w'.inbox == w.inbox
  {
    hide CreditOpening, Changes, InsertWallet, Sound, Unowned;
    var row := WalletRow(w.next, cmd.playerID, cmd.initialBalance, 1, cmd.now, cmd.now);
    var w1 := w.(next := w.next + 1, wallets := w.wallets[row.id := row]);
    InsertWalletEffect(w, row);
    if cmd.initialBalance.minorUnits > 0 {
      CreditEffect(w, w1, row, cmd);
    } else {
      OpenedEffect(w, row);
    }
  }

  lemma CreditEffect(w: World, w1: World, row: WalletRow, cmd: OpenCommand)
    requires Sound(w) && CreditOpening(w1, row.id, cmd).Ok?
    requires row == WalletRow(w.next, cmd.playerID, cmd.initialBalance, 1, cmd.now, cmd.now)
    requires row.balance.minorUnits > 0 && Unowned(w.wallets, row)
    requires w1 == w.(next := w.next + 1, wallets := w.wallets[row.id := row])
    ensures var w' := CreditOpening(w1, row.id, cmd).value;
            && (exists c :: Changes(w, w', c) && c.Credited?)
            && w'.inbox == w.inbox
  {
    hide CreditOpening, Told, AnnouncedMove, AnnouncedNote, Unowned, UniqueKeys, RowSound, Carried;
    var amount := cmd.initialBalance;
    var zero := Money(0, amount.currency);
    var t := OpeningTx(w.next + 1, w.next, cmd.playerID, amount, cmd.now);
    var e := Ledger.Entry(w.next + 2, w.next, t.ident.id, Ledger.Credit, amount, zero, amount, cmd.now);
    CreditBooks(w1, row.id, cmd, t, e);
    var w2 := w1.(next := w.next + 3, txs := w.txs[t.ident.id := TxRow(t, 0, None)], ledger := w.ledger + [e]);
    var w' := OpeningEvents(w2, t, cmd);
    OpeningAnnounced(w, w2, t, e, cmd);
    assert Wrote(w.txs, w'.txs, t);
    hide Wrote, OpeningEvents, OpeningTx, Sound;
    assert Changes(w, w', Credited(row, t, e));
  }

  lemma OpeningAnnounced(w: World, w2: World, t: Tx, e: Ledger.Entry, cmd: OpenCommand)
    requires w2.outbox == w.outbox && w2.next >= w.next
    requires t == OpeningTx(t.ident.id, t.ident.walletID, cmd.playerID, cmd.initialBalance, cmd.now)
    requires e == Ledger.Entry(e.id, t.ident.walletID, t.ident.id, Ledger.Credit, cmd.initialBalance,
                               Money(0, cmd.initialBalance.currency), cmd.initialBalance, cmd.now)
    ensures var w' := OpeningEvents(w2, t, cmd);
            && AnnouncedMove(w, w', e, 1) && Told(w, w', t)
            && w' == w2.(outbox := w'.outbox, next := w2.next + 2)
  {
    hide AnnouncedMove, Told;
    var w3 := AppendEvent(w2, ProcessedEvent(t.ident, t.resulting, cmd.now), cmd.now);
    NoteAnnounced(w2, t, cmd.now);
    MovementAnnounced(w, w2, w3, t, e, 1, cmd.now);
  }

  lemma NoteAnnounced(w: World, t: Tx, now: Time)
    requires t.status.Processed? && t.resulting.Some? && t.updatedAt == now
    ensures var w' := AppendEvent(w, ProcessedEvent(t.ident, t.resulting, now), now);
            AnnouncedNote(w, w') && Told(w, w', t)
  {
  }

  lemma CreditBooks(w: World, walletID: Id, cmd: OpenCommand, t: Tx, e: Ledger.Entry)
    requires CreditOpening(w, walletID, cmd).Ok?
    requires t == OpeningTx(w.next, walletID, cmd.playerID, cmd.initialBalance, cmd.now)
    requires var amount := cmd.initialBalance;
             e == Ledger.Entry(w.next + 1, walletID, w.next, Ledger.Credit, amount, Money(0, amount.currency), amount,
                               cmd.now)
    ensures var w2 := w.(next := w.next + 2, txs := w.txs[w.next := TxRow(t, 0, None)], ledger := w.ledger + [e]);
            CreditOpening(w, walletID, cmd) == Ok(OpeningEvents(w2, t, cmd))
  {
    var zero := Money(0, cmd.initialBalance.currency);
    Ledger.NewIsExact(e.id, walletID, w.next, Ledger.Credit, cmd.initialBalance, zero, cmd.initialBalance, cmd.now);
    hide Ledger.New, OpeningEvents;
    assert Persisted(t) == t;
  }

  /** Processing a command changes the tables in one of these ways, or not at all when it is a replay. */
  lemma ProcessEffect(w: World, cmd: Command)
    requires Sound(w) && Process(w, cmd).Ok?
    ensures var (w', r) := Process(w, cmd).value;
            && (if r.replay then w' == w else exists c :: Changes(w, w', c) && About(c, w.next))
            && w'.inbox == w.inbox
  {
    hide Create, Changes;
    if FindKey(w.txs, cmd.providerID, cmd.key).None? {
      CreateEffect(w, cmd);
      var (w', t) := Create(w, cmd).value;
      var c :| Changes(w, w', c) && Leaves(c, t);
      assert Changes(w, w', c) && About(c, w.next);
    }
  }

  /** The classification does not look at the inbox. */
  lemma ChangesIgnoreInbox(w: World, w': World, v: World, v': World, c: Change)
    requires Changes(w, w', c) && v == w.(inbox := v.inbox) && v' == w'.(inbox := v'.inbox)
    ensures Changes(v, v', c)
  {
  }

  lemma ExecuteEffect(w: World, cmd: Command)
    requires Sound(w) && Execute(w, cmd).Ok?
    ensures exists c :: Changes(w, Execute(w, cmd).value.0, c) && (c.Quiet? || About(c, w.next))
    ensures Execute(w, cmd).value.1.replay ==> Changes(w, Execute(w, cmd).value.0, Quiet)
  {
    hide Process, Changes;
    var w' := Execute(w, cmd).value.0;
    var w1 := if cmd.inbox.Some? && cmd.inbox.value !in w.inbox
              then w.(inbox := w.inbox[cmd.inbox.value := InboxRecord(CanonicalPayload(cmd), cmd.now, None)]) else w;
    QuietIsNoChange(w, w);
    if cmd.inbox.Some? && cmd.inbox.value in w.inbox && w.inbox[cmd.inbox.value].completedAt.Some? {
    } else {
      ProcessEffect(w1, cmd);
      var done := Process(w1, cmd).value.0;
      assert w' == done.(inbox := w'.inbox);
      QuietIsNoChange(w1, w');
      if Process(w1, cmd).value.1.replay {
        QuietIsNoChange(w, w');
      } else {
        var c :| Changes(w1, done, c) && About(c, w1.next);
        ChangesIgnoreInbox(w1, done, w, w', c);
      }
    }
  }

  lemma QuietIsNoChange(w: World, w': World)
    ensures Changes(w, w', Quiet) <==> w' == w.(inbox := w'.inbox)
  {
  }

  /** Every step of a run, committed or rolled back, is one of the six changes. */
  lemma StepChanges(w: World, policy: RetryPolicy, step: Step)
    requires Sound(w)
    ensures exists c :: Changes(w, After(w, policy, step), c)
  {
    hide Open, Execute, Attempt, Changes;
    QuietIsNoChange(w, w);
    assert Changes(w, w, Quiet);
    var w' := After(w, policy, step);
    if w' != w {
      match step
      case OpenWallet(cmd, commits) =>
        OpenEffect(w, cmd);
        var c :| Changes(w, w', c);
      case Submit(cmd, commits) =>
        ExecuteEffect(w, cmd);
        var c :| Changes(w, w', c);
      case Resolve(id, now, commits) =>
        AttemptEffect(w, policy, id, now);
        var c :| Changes(w, w', c);
    }
  }

  /** The unique indexes only look at the fields that are never written again. */
  lemma UniqueByIdent(txs: map<Id, TxRow>, txs': map<Id, TxRow>)
    requires UniqueKeys(txs) && txs'.Keys == txs.Keys
    requires forall id :: id in txs ==> txs'[id].tx.ident == txs[id].tx.ident
    ensures UniqueKeys(txs')
  {
    forall i, j | i in txs' && j in txs' && i != j
      ensures !SameExternal(txs'[i].tx, txs'[j].tx) && !SameKey(txs'[i].tx, txs'[j].tx)
    {
      assert !SameExternal(txs[i].tx, txs[j].tx) && !SameKey(txs[i].tx, txs[j].tx);
    }
  }

  lemma UniqueWithNew(txs: map<Id, TxRow>, txs': map<Id, TxRow>, t: Tx)
    requires UniqueKeys(txs) && t.ident.id !in txs && Wrote(txs, txs', t)
    requires forall id :: id in txs ==> !SameExternal(txs[id].tx, t) && !SameKey(txs[id].tx, t)
    ensures UniqueKeys(txs')
  {
    forall i, j | i in txs' && j in txs' && i != j
      ensures !SameExternal(txs'[i].tx, txs'[j].tx) && !SameKey(txs'[i].tx, txs'[j].tx)
    {
      if i == t.ident.id {
        assert !SameExternal(txs[j].tx, t) && !SameKey(txs[j].tx, t);
      } else if j == t.ident.id {
        assert !SameExternal(txs[i].tx, t) && !SameKey(txs[i].tx, t);
      } else {
        assert !SameExternal(txs[i].tx, txs[j].tx) && !SameKey(txs[i].tx, txs[j].tx);
      }
    }
  }

  /** The unique indexes hold after a write: a new row clashes with nothing, an old row keeps its identity. */
  lemma UniquePreserved(w: World, txs': map<Id, TxRow>, t: Tx)
    requires Sound(w) && Rewritable(w, t.ident) && Wrote(w.txs, txs', t)
    ensures UniqueKeys(txs')
  {
    hide UniqueKeys, RowSound;
    if t.ident.id in w.txs {
      UniqueByIdent(w.txs, txs');
    } else {
      forall id | id in w.txs
        ensures !SameExternal(w.txs[id].tx, t) && !SameKey(w.txs[id].tx, t)
      {
        assert !SameExternal(w.txs[id].tx, FreshTx(t.ident)) && !SameKey(w.txs[id].tx, FreshTx(t.ident));
      }
      UniqueWithNew(w.txs, txs', t);
    }
  }

  lemma RowsPreserved(w: World, txs': map<Id, TxRow>, t: Tx)
    requires Sound(w) && Rewritable(w, t.ident) && Wrote(w.txs, txs', t)
    ensures KeyedByID(txs') && UniqueKeys(txs') && t.ident.id <= w.next
    ensures ExternalFault(t.ident) == None && t.ident.walletID in w.wallets
  {
    UniquePreserved(w, txs', t);
    hide UniqueKeys, RowSound;
  }

  /** The classification's own needs survive every change. */
  lemma SoundPreserved(w: World, w': World, c: Change)
    requires Sound(w) && Alters(w, w', c)
    ensures Sound(w')
  {
    hide Sound, Alters, Rewrites;
    AlterationRewrites(w, w', c);
    SoundRewritten(w, w', c);
  }

  lemma SoundRewritten(w: World, w': World, c: Change)
    requires Sound(w) && Rewrites(w, w', c)
    ensures Sound(w')
  {
    hide Rewritable, Wrote, AnnouncedMove, AnnouncedNote, Told, UniqueKeys, ExternalFault;
    SupplyRises(w, w', c);
    match c
    case Noted(t) => WrittenIsSound(w, w', t);
    case Booked(b) => WrittenIsSound(w, w', b.tx);
    case Credited(row, t, e) => CreditedIsSound(w, w', row, t, e);
    case Rescheduled(id) => RescheduledIsSound(w, w', id);
    case _ =>
  }

  lemma WrittenIsSound(w: World, w': World, t: Tx)
    requires Sound(w) && Rewritable(w, t.ident) && Wrote(w.txs, w'.txs, t) && w'.next > w.next
    requires Unmoved(t) || (t.status.Processed? && Moves(t.ident.kind) && t.failure == NoCode && t.resulting.Some?)
    requires w'.wallets.Keys == w.wallets.Keys && forall id :: id in w'.wallets ==> w'.wallets[id].id == id
    ensures Sound(w')
  {
    RowsPreserved(w, w'.txs, t);
    hide UniqueKeys, KeyedByID, Rewritable, Wrote;
    assert RowSound(t);
    RowsSound(w, w', t);
  }

  lemma RowsSound(w: World, w': World, t: Tx)
    requires Sound(w) && Wrote(w.txs, w'.txs, t) && KeyedByID(w'.txs) && UniqueKeys(w'.txs)
    requires t.ident.id < w'.next && w.next <= w'.next && t.ident.walletID in w.wallets && RowSound(t)
    requires w'.wallets.Keys == w.wallets.Keys && forall id :: id in w'.wallets ==> w'.wallets[id].id == id
    ensures Sound(w')
  {
    hide UniqueKeys, RowSound;
    forall id | id in w'.txs
      ensures id < w'.next && w'.txs[id].tx.ident.walletID in w'.wallets && RowSound(w'.txs[id].tx)
    {
      if id != t.ident.id {
        assert w'.txs[id] == w.txs[id];
      }
    }
  }

  lemma CreditedIsSound(w: World, w': World, row: WalletRow, t: Tx, e: Ledger.Entry)
    requires Sound(w) && Alters(w, w', Credited(row, t, e))
    ensures Sound(w')
  {
    hide UniqueKeys, AnnouncedMove, Told, Unowned;
    UnusedIdentifier(w, t.ident.id);
    OpeningIsUnique(w, w'.txs, t);
    assert RowSound(t);
    hide RowSound, OpeningTx;
    forall id | id in w'.txs
      ensures id < w'.next && w'.txs[id].tx.ident.walletID in w'.wallets && RowSound(w'.txs[id].tx)
      ensures w'.txs[id].tx.ident.id == id && id != NIL
    {
      if id != t.ident.id {
        assert w'.txs[id] == w.txs[id];
      }
    }
  }

  /** An opening has no provider, so it clashes with nothing. */
  lemma OpeningIsUnique(w: World, txs': map<Id, TxRow>, t: Tx)
    requires UniqueKeys(w.txs) && t.ident.id !in w.txs && Wrote(w.txs, txs', t) && t.ident.providerID == ""
    ensures UniqueKeys(txs')
  {
    hide UniqueKeys;
    UniqueWithNew(w.txs, txs', t);
  }

  lemma RescheduledIsSound(w: World, w': World, id: Id)
    requires Sound(w) && Rewrites(w, w', Rescheduled(id))
    ensures Sound(w')
  {
    hide UniqueKeys, RowSound;
    UniqueByIdent(w.txs, w'.txs);
  }

  /** Rows are never deleted, and their identity is never written again. */
  ghost predicate Extends(txs: map<Id, TxRow>, txs': map<Id, TxRow>) {
    forall id :: id in txs ==> id in txs' && txs'[id].tx.ident == txs[id].tx.ident
  }

  lemma AlterationExtends(w: World, w': World, c: Change)
    requires Sound(w) && Alters(w, w', c)
    ensures Extends(w.txs, w'.txs)
  {
    hide Sound, Alters, Rewrites, Extends;
    AlterationRewrites(w, w', c);
    RewriteExtends(w, w', c);
  }

  lemma RewriteExtends(w: World, w': World, c: Change)
    requires Sound(w) && Rewrites(w, w', c)
    ensures Extends(w.txs, w'.txs)
  {
    hide UniqueKeys, RowSound, Carried, AnnouncedMove, AnnouncedNote, Told;
  }

  lemma ChangesExtend(w: World, w': World, c: Change)
    requires Sound(w) && Changes(w, w', c)
    ensures Extends(w.txs, w'.txs)
  {
    hide Alters, Extends, Sound, Justified;
    AlterationExtends(w, w', c);
  }

  lemma RunIsSound(policy: RetryPolicy, steps: seq<Step>)
    ensures Sound(Run(policy, steps))
  {
    if steps != [] {
      var w := Run(policy, steps[..|steps| - 1]);
      RunIsSound(policy, steps[..|steps| - 1]);
      StepChanges(w, policy, steps[|steps| - 1]);
      hide Sound, Alters, After;
      var c :| Changes(w, Run(policy, steps), c);
      SoundPreserved(w, Run(policy, steps), c);
    }
  }

  /** A committed transaction behaves as the serial processing of its command. */
  lemma CreateIsProcess(w: World, cmd: Command)
    requires Sound(w) && Create(w, cmd).Ok?
    ensures Process(w, cmd) == Ok((Create(w, cmd).value.0, ResultOf(Create(w, cmd).value.1, false)))
  {
    hide Dispatch, RowSound, UniqueKeys;
    var p := IdentOf(cmd, w.next);
    InsertEffect(w, p);
    assert SameExternal(FreshTx(p), FreshTx(p)) && SameKey(FreshTx(p), FreshTx(p));
    assert forall id :: id in w.txs ==> !SameExternal(w.txs[id].tx, FreshTx(p)) && !SameKey(w.txs[id].tx, FreshTx(p));
  }

  /** A committed transaction of this kind is what the serial step makes of the same tables. */
  lemma SerialStep(w: World, policy: RetryPolicy, cmd: Command)
    requires Sound(w) && Create(w, cmd).Ok?
    ensures After(w, policy, Submit(cmd.(inbox := None), true)) == Create(w, cmd).value.0
  {
    CreateIsProcess(w, cmd.(inbox := None));
    hide Process, Dispatch, InsertTx, Sound;
    assert Create(w, cmd.(inbox := None)) == Create(w, cmd);
  }
}
