/**
 * internal/infra/postgres and migrations/: the tables of the service, what each repository statement does to them,
 * and a `Database` object whose methods are those statements.
 */
module Store {
  import opened Prelude
  import opened Int64
  import opened MoneyDomain
  import opened WalletDomain
  import opened WagerDomain
  import Ledger = LedgerDomain

  /** A wager_transactions row: the aggregate's columns and the two retry columns beside them. */
  datatype TxRow = TxRow(tx: Tx, attempts: nat, retryAt: Option<Time>)

  type InboxKey = (string, string)

  datatype InboxRecord = InboxRecord(hash: Payload, receivedAt: Time, completedAt: Option<Time>)

  /** The four integration events, with the data they carry. */
  datatype Event =
    | TransactionProcessed(transactionID: Id, providerID: string, externalID: string, walletID: Id, playerID: Id,
                           kind: Kind, money: Money, resulting: Option<Money>, processedAt: Time)
    | TransactionRejected(transactionID: Id, providerID: string, externalID: string, walletID: Id, playerID: Id,
                          kind: Kind, code: FailureCode, rejectedAt: Time)
    | TransactionParked(transactionID: Id, providerID: string, externalID: string, walletID: Id, reference: string)
    | BalanceChanged(walletID: Id, transactionID: Id, direction: Ledger.Direction, money: Money,
                     before: Money, after: Money, version: int64)

  datatype OutboxRecord = OutboxRecord(id: Id, event: Event, occurredAt: Time, attempts: nat, nextAttempt: Time,
                                       publishedAt: Option<Time>)

  /** Every table, and the supply of identifiers: `next` and everything above it is still unused. */
  datatype World = World(wallets: map<Id, WalletRow>, txs: map<Id, TxRow>, ledger: seq<Ledger.Entry>,
                         inbox: map<InboxKey, InboxRecord>, outbox: seq<OutboxRecord>, next: Id)

  type Write = Result<World, Error>

  // ---- wallets ----

  function InsertWallet(w: World, row: WalletRow): Write {
    if row.id in w.wallets
       || exists id :: id in w.wallets && w.wallets[id].playerID == row.playerID
                       && w.wallets[id].balance.currency == row.balance.currency
    then Err(Conflict)
    else if row.balance.minorUnits < 0 || row.version < 1 then Err(ConstraintViolation)
    else Ok(w.(wallets := w.wallets[row.id := row]))
  }

  /** UPDATE ... WHERE id AND version: writes balance, version and updated_at, under the table's two checks. */
  function UpdateWallet(w: World, row: WalletRow, expected: int64): Write {
    if row.id !in w.wallets || w.wallets[row.id].version != expected then Err(OptimisticLock)
    else if row.balance.minorUnits < 0 || row.version < 1 then Err(ConstraintViolation)
    else
      var stored := w.wallets[row.id];
      var balance := Money(row.balance.minorUnits, stored.balance.currency);
      Ok(w.(wallets := w.wallets[row.id :=
                                 stored.(balance := balance, version := row.version, updatedAt := row.updatedAt)]))
  }

  // ---- wager_transactions ----

  /** A row matches a provider-scoped lookup; empty strings are stored as NULL and match nothing. */
  predicate HasExternal(t: Tx, provider: string, external: string) {
    provider != "" && external != "" && t.ident.providerID == provider && t.ident.externalID == external
  }

  predicate HasKey(t: Tx, provider: string, key: string) {
    provider != "" && key != "" && t.ident.providerID == provider && t.ident.key == key
  }

  ghost function FindExternal(txs: map<Id, TxRow>, provider: string, external: string): (r: Option<Id>)
    ensures r.Some? ==> r.value in txs && HasExternal(txs[r.value].tx, provider, external)
    ensures r.None? ==> forall id :: id in txs ==> !HasExternal(txs[id].tx, provider, external)
  {
    if id :| id in txs && HasExternal(txs[id].tx, provider, external) then Some(id) else None
  }

  ghost function FindKey(txs: map<Id, TxRow>, provider: string, key: string): (r: Option<Id>)
    ensures r.Some? ==> r.value in txs && HasKey(txs[r.value].tx, provider, key)
    ensures r.None? ==> forall id :: id in txs ==> !HasKey(txs[id].tx, provider, key)
  {
    if id :| id in txs && HasKey(txs[id].tx, provider, key) then Some(id) else None
  }

  /** Each lookup finds the row with the provider and the key or external id, if there is one; empty texts find none. */
  lemma LookupsAreExact(txs: map<Id, TxRow>, provider: string, text: string, id: Id)
    requires UniqueKeys(txs)
    ensures FindExternal(txs, provider, text) == Some(id)
            <==> id in txs && txs[id].tx.ident.providerID == provider != "" && txs[id].tx.ident.externalID == text != ""
    ensures FindKey(txs, provider, text) == Some(id)
            <==> id in txs && txs[id].tx.ident.providerID == provider != "" && txs[id].tx.ident.key == text != ""
  {
    var e, k := FindExternal(txs, provider, text), FindKey(txs, provider, text);
    if id in txs && e.Some? && HasExternal(txs[id].tx, provider, text) {
      assert id != e.value ==> !SameExternal(txs[id].tx, txs[e.value].tx);
    }
    if id in txs && k.Some? && HasKey(txs[id].tx, provider, text) {
      assert id != k.value ==> !SameKey(txs[id].tx, txs[k.value].tx);
    }
  }

  predicate SameExternal(a: Tx, b: Tx) {
    HasExternal(a, b.ident.providerID, b.ident.externalID)
  }

  predicate SameKey(a: Tx, b: Tx) {
    HasKey(a, b.ident.providerID, b.ident.key)
  }

  /** The two partial unique indexes. */
  ghost predicate UniqueKeys(txs: map<Id, TxRow>) {
    forall i, j :: i in txs && j in txs && i != j ==>
                     !SameExternal(txs[i].tx, txs[j].tx) && !SameKey(txs[i].tx, txs[j].tx)
  }

  /** The row keeps the resulting balance as minor units, so it comes back in the transaction's own currency. */
  function Persisted(t: Tx): Tx {
    match t.resulting
    case None => t
    case Some(b) => t.(resulting := Some(Money(b.minorUnits, t.ident.money.currency)))
  }

  /** Rows are keyed by their own identifier, which no constructor lets be nil. */
  ghost predicate KeyedByID(txs: map<Id, TxRow>) {
    forall id :: id in txs ==> txs[id].tx.ident.id == id && id != NIL
  }

  /** The identifier is taken, or one of the unique indexes has the new row's key or external id. */
  predicate Clashing(txs: map<Id, TxRow>, t: Tx) {
    t.ident.id in txs || exists id :: id in txs && (SameExternal(txs[id].tx, t) || SameKey(txs[id].tx, t))
  }

  /** The mutable columns say what the transaction says; a balance is kept as minor units in the row's currency. */
  predicate Holds(row: TxRow, t: Tx) {
    && row.tx.status == t.status && row.tx.failure == t.failure && row.tx.resolved == t.resolved
    && row.tx.updatedAt == t.updatedAt && row.tx.resulting.Some? == t.resulting.Some?
    && (t.resulting.Some? ==>
          row.tx.resulting == Some(Money(t.resulting.value.minorUnits, row.tx.ident.money.currency)))
  }

  function InsertTx(w: World, t: Tx): Write {
    if Clashing(w.txs, t) then Err(Conflict)
    else if t.ident.walletID !in w.wallets || t.ident.money.minorUnits < 0
            || (t.resolved.Some? && t.resolved.value !in w.txs)
    then Err(ConstraintViolation)
    else Ok(w.(txs := w.txs[t.ident.id := TxRow(Persisted(t), 0, None)]))
  }

  /** UPDATE of the five mutable columns; updating no row is not an error. */
  function UpdateTx(w: World, t: Tx): Write {
    if t.ident.id !in w.txs then Ok(w)
    else if t.resolved.Some? && t.resolved.value !in w.txs then Err(ConstraintViolation)
    else Ok(w.(txs := w.txs[t.ident.id := Overwritten(w.txs[t.ident.id], t)]))
  }

  function Overwritten(row: TxRow, t: Tx): TxRow {
    var kept := Tx(row.tx.ident, t.status, t.failure, t.resolved, t.resulting, t.updatedAt);
    row.(tx := Persisted(kept))
  }

  function RecordAttempt(w: World, id: Id, attempts: nat, retryAt: Time): World {
    if id !in w.txs then w
    else w.(txs := w.txs[id := w.txs[id].(attempts := attempts, retryAt := Some(retryAt))])
  }

  predicate Reverses(t: Tx, target: Id) {
    RequiresReference(t.ident.kind) && t.status.Processed? && t.resolved == Some(target)
  }

  function CountReversals(txs: map<Id, TxRow>, target: Id, kind: Kind): nat {
    |set id | id in txs && txs[id].tx.resolved == Some(target) && txs[id].tx.ident.kind == kind
              && txs[id].tx.status.Processed?|
  }

  /** The in-memory repository's rule: a parked row is due when it was never scheduled or its retry time has come. */
  predicate Due(row: TxRow, now: Time) {
    row.tx.status.PendingReference? && (row.retryAt.None? || row.retryAt.value <= now)
  }

  // ---- ledger_entries ----

  function InsertEntry(w: World, e: Ledger.Entry): Write {
    if exists i :: 0 <= i < |w.ledger| && (w.ledger[i].id == e.id
                                           || (w.ledger[i].walletID == e.walletID
                                               && w.ledger[i].transactionID == e.transactionID))
    then Err(Conflict)
    else if e.walletID !in w.wallets || e.transactionID !in w.txs || e.money.minorUnits <= 0 || e.after.minorUnits < 0
    then Err(ConstraintViolation)
    else Ok(w.(ledger := w.ledger + [e]))
  }

  // ---- inbox_records and outbox_records ----

  function InsertInbox(w: World, k: InboxKey, rec: InboxRecord): Write {
    if k in w.inbox then Err(Conflict) else Ok(w.(inbox := w.inbox[k := rec]))
  }

  function CompleteInbox(w: World, k: InboxKey, at: Time): World {
    if k !in w.inbox then w else w.(inbox := w.inbox[k := w.inbox[k].(completedAt := Some(at))])
  }

  function ProcessedEvent(p: Ident, resulting: Option<Money>, at: Time): Event {
    TransactionProcessed(p.id, p.providerID, p.externalID, p.walletID, p.playerID, p.kind, p.money, resulting, at)
  }

  function RejectedEvent(p: Ident, code: FailureCode, at: Time): Event {
    TransactionRejected(p.id, p.providerID, p.externalID, p.walletID, p.playerID, p.kind, code, at)
  }

  function ParkedEvent(p: Ident): Event {
    TransactionParked(p.id, p.providerID, p.externalID, p.walletID, p.reference)
  }

  /** Appends an event under a fresh identifier, due at once. */
  function AppendEvent(w: World, e: Event, now: Time): World {
    w.(outbox := w.outbox + [OutboxRecord(w.next, e, now, 0, now, None)], next := w.next + 1)
  }

  function TxOf(w: World, id: Option<Id>): Option<Tx>
    requires id.Some? ==> id.value in w.txs
  {
    match id
    case None => None
    case Some(i) => Some(w.txs[i].tx)
  }

  /** One connection to the database. Its state is the value of all tables. */
  class Database {
    var world: World

    ghost predicate Valid()
      reads this
    {
      UniqueKeys(world.txs) && KeyedByID(world.txs)
    }

    constructor (w: World)
      requires UniqueKeys(w.txs) && KeyedByID(w.txs)
      ensures Valid() && world == w
    {
      world := w;
    }

    /** uuid.NewV7(): an identifier nothing has used before. */
    method NewID() returns (id: Id)
      modifies this
      ensures id == old(world).next && world == old(world).(next := id + 1)
    {
      id := world.next;
      world := world.(next := id + 1);
    }

    method FindWallet(id: Id) returns (r: Result<Wallet, Error>)
      ensures r.Ok? <==> id in world.wallets
      ensures r.Ok? ==> fresh(r.value) && r.value.Value() == world.wallets[id]
      ensures r.Err? ==> r.error == NotFound
    {
      if id !in world.wallets {
        return Err(NotFound);
      }
      var w := new Wallet(world.wallets[id]);
      return Ok(w);
    }

    /** INSERT: one wallet per identifier, and per player and currency, under the table's two checks. */
    method CreateWallet(w: Wallet) returns (r: Outcome<Error>)
      requires Valid()
      modifies this
      ensures Valid()
      ensures var taken := w.id in old(world).wallets
                           || exists id :: id in old(world).wallets
                                           && old(world).wallets[id].playerID == w.playerID
                                           && old(world).wallets[id].balance.currency == w.balance.currency;
              r == if taken then Fail(Conflict)
                   else if w.balance.minorUnits < 0 || w.version < 1 then Fail(ConstraintViolation) else Pass
      ensures world == if r == Pass then old(world).(wallets := old(world).wallets[w.id := w.Value()]) else old(world)
    {
      var row := WalletRow(w.id, w.playerID, w.balance, w.version, w.createdAt, w.updatedAt);
      var write := InsertWallet(world, row);
      if write.Err? {
        return Fail(write.error);
      }
      world := write.value;
      return Pass;
    }

    /** Optimistic locking: the row is written if and only if it is stored with the expected version and passes. */
    method SaveWallet(w: Wallet, expected: int64) returns (r: Outcome<Error>)
      requires Valid()
      modifies this
      ensures Valid()
      ensures r == Pass <==> w.id in old(world).wallets && old(world).wallets[w.id].version == expected
                             && w.balance.minorUnits >= 0 && w.version >= 1
      ensures r != Pass ==> world == old(world)
                            && r.error == if w.id in old(world).wallets && old(world).wallets[w.id].version == expected
                                          then ConstraintViolation else OptimisticLock
      ensures r == Pass ==>
                w.id in world.wallets &&
                var before, after := old(world).wallets[w.id], world.wallets[w.id];
                && world == old(world).(wallets := old(world).wallets[w.id := after])
                && after.balance.minorUnits == w.balance.minorUnits && after.version == w.version
                && after.updatedAt == w.updatedAt
                && after.balance.currency == before.balance.currency && after.id == before.id
                && after.playerID == before.playerID && after.createdAt == before.createdAt
    {
      var row := WalletRow(w.id, w.playerID, w.balance, w.version, w.createdAt, w.updatedAt);
      assert row == w.Value();
      var write := UpdateWallet(world, row, expected);
      if write.Err? {
        return Fail(write.error);
      }
      world := write.value;
      return Pass;
    }

    method FindByProviderAndExternalID(provider: string, external: string) returns (r: Option<Tx>)
      requires Valid()
      ensures r == TxOf(world, FindExternal(world.txs, provider, external))
    {
      if id :| id in world.txs && HasExternal(world.txs[id].tx, provider, external) {
        return Some(world.txs[id].tx);
      }
      return None;
    }

    method FindByIdempotencyKey(provider: string, key: string) returns (r: Option<Tx>)
      requires Valid()
      ensures r == TxOf(world, FindKey(world.txs, provider, key))
    {
      if id :| id in world.txs && HasKey(world.txs[id].tx, provider, key) {
        return Some(world.txs[id].tx);
      }
      return None;
    }

    /** INSERT: the primary key, the two unique indexes, the amount check and the two foreign keys decide. */
    method CreateTx(t: Transaction) returns (r: Outcome<Error>)
      requires Valid() && t.ident.id != NIL
      modifies this
      ensures Valid()
      ensures var txs, p := old(world).txs, t.ident;
              var taken := p.id in txs
                           || exists id :: && id in txs && p.providerID == txs[id].tx.ident.providerID != ""
                                           && (p.externalID == txs[id].tx.ident.externalID != ""
                                               || p.key == txs[id].tx.ident.key != "");
              var fits := p.walletID in old(world).wallets && p.money.minorUnits >= 0
                          && (t.resolved.Some? ==> t.resolved.value in txs);
              r == if taken then Fail(Conflict) else if fits then Pass else Fail(ConstraintViolation)
      ensures r != Pass ==> world == old(world)
      ensures r == Pass ==>
                && t.ident.id in world.txs
                && world == old(world).(txs := old(world).txs[t.ident.id := world.txs[t.ident.id]])
                && var row := world.txs[t.ident.id];
                   row.tx.ident == t.ident && row.attempts == 0 && row.retryAt.None? && Holds(row, t.Value())
    {
      var write := InsertTx(world, t.Value());
      if write.Err? {
        return Fail(write.error);
      }
      world := write.value;
      return Pass;
    }

    /** UPDATE: an unknown row is no error; a known one takes the five columns unless its reference is unknown. */
    method SaveTx(t: Transaction) returns (r: Outcome<Error>)
      requires Valid()
      modifies this
      ensures Valid()
      ensures r == Pass <==> (t.ident.id in old(world).txs && t.resolved.Some? ==> t.resolved.value in old(world).txs)
      ensures r != Pass ==> world == old(world) && r.error == ConstraintViolation
      ensures r == Pass && t.ident.id !in old(world).txs ==> world == old(world)
      ensures r == Pass && t.ident.id in old(world).txs ==>
                && t.ident.id in world.txs
                && world == old(world).(txs := old(world).txs[t.ident.id := world.txs[t.ident.id]])
                && var before, after := old(world).txs[t.ident.id], world.txs[t.ident.id];
                   after.tx.ident == before.tx.ident && after.attempts == before.attempts
                   && after.retryAt == before.retryAt && Holds(after, t.Value())
    {
      var write := UpdateTx(world, t.Value());
      if write.Err? {
        return Fail(write.error);
      }
      world := write.value;
      return Pass;
    }

    /** UPDATE of the two retry columns. */
    method RecordPendingReferenceAttempt(id: Id, attempts: nat, retryAt: Time)
      requires Valid()
      modifies this
      ensures Valid()
      ensures world == if id in old(world).txs
                       then old(world).(txs := old(world).txs[id :=
                                                 TxRow(old(world).txs[id].tx, attempts, Some(retryAt))])
                       else old(world)
    {
      world := RecordAttempt(world, id, attempts, retryAt);
    }

    /** At most `limit` due rows, each once; fewer only when there are no more. */
    method ListPendingReferenceDue(now: Time, limit: nat) returns (due: seq<Tx>)
      requires Valid()
      ensures |due| <= limit
      ensures forall i :: 0 <= i < |due| ==>
                            due[i].ident.id in world.txs &&
                            var row := world.txs[due[i].ident.id];
                            && due[i] == row.tx && row.tx.status.PendingReference?
                            && (row.retryAt.Some? ==> row.retryAt.value <= now)
      ensures forall i, j :: 0 <= i < j < |due| ==> due[i].ident.id != due[j].ident.id
      ensures |due| < limit ==>
                forall id :: id in world.txs && world.txs[id].tx.status.PendingReference?
                             && (world.txs[id].retryAt.None? || world.txs[id].retryAt.value <= now) ==>
                               world.txs[id].tx in due
    {
      hide UniqueKeys;
      due := [];
      var rest := set id | id in world.txs && Due(world.txs[id], now);
      while rest != {} && |due| < limit
        invariant |due| <= limit
        invariant forall id :: id in rest ==> id in world.txs && Due(world.txs[id], now)
        invariant forall i :: 0 <= i < |due| ==>
                                due[i].ident.id in world.txs && due[i] == world.txs[due[i].ident.id].tx
                                && Due(world.txs[due[i].ident.id], now) && due[i].ident.id !in rest
        invariant forall i, j :: 0 <= i < j < |due| ==> due[i].ident.id != due[j].ident.id
        invariant forall id :: id in world.txs && Due(world.txs[id], now) ==>
                                 id in rest || world.txs[id].tx in due
        decreases rest
      {
        var id :| id in rest;
        due := due + [world.txs[id].tx];
        rest := rest - {id};
      }
    }

    /** INSERT: one entry per identifier, and per wallet and transaction, of a known wallet and transaction. */
    method AppendEntry(e: Ledger.Entry) returns (r: Outcome<Error>)
      requires Valid()
      modifies this
      ensures Valid()
      ensures var taken := exists i :: 0 <= i < |old(world).ledger|
                                       && (old(world).ledger[i].id == e.id
                                           || (old(world).ledger[i].walletID == e.walletID
                                               && old(world).ledger[i].transactionID == e.transactionID));
              var fits := e.walletID in old(world).wallets && e.transactionID in old(world).txs
                          && e.money.minorUnits > 0 && e.after.minorUnits >= 0;
              r == if taken then Fail(Conflict) else if fits then Pass else Fail(ConstraintViolation)
      ensures world == if r == Pass then old(world).(ledger := old(world).ledger + [e]) else old(world)
    {
      var write := InsertEntry(world, e);
      if write.Err? {
        return Fail(write.error);
      }
      world := write.value;
      return Pass;
    }

    method InsertInboxRecord(k: InboxKey, rec: InboxRecord) returns (r: Outcome<Error>)
      requires Valid()
      modifies this
      ensures Valid() && r == if k in old(world).inbox then Fail(Conflict) else Pass
      ensures world == if r == Pass then old(world).(inbox := old(world).inbox[k := rec]) else old(world)
    {
      var write := InsertInbox(world, k, rec);
      if write.Err? {
        return Fail(write.error);
      }
      world := write.value;
      return Pass;
    }

    method MarkCompleted(k: InboxKey, at: Time)
      requires Valid()
      modifies this
      ensures Valid()
      ensures k !in old(world).inbox ==> world == old(world)
      ensures k in old(world).inbox ==>
                var rec := old(world).inbox[k];
                world == old(world).(inbox := old(world).inbox[k := InboxRecord(rec.hash, rec.receivedAt, Some(at))])
    {
      world := CompleteInbox(world, k, at);
    }

    /** INSERT under a fresh identifier: due at once, never attempted, not published. */
    method Publish(e: Event, now: Time)
      requires Valid()
      modifies this
      ensures Valid()
      ensures var w := old(world);
              world == w.(outbox := w.outbox + [OutboxRecord(w.next, e, now, 0, now, None)], next := w.next + 1)
    {
      world := AppendEvent(world, e, now);
    }
  }
}
