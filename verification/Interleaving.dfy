/**
 * internal/infra/postgres/wallet_repository.go as a concurrency protocol. Any number of clients and resolvers read
 * wallets, references and parked rows without keeping a lock, and commit later on what they saw; only the version
 * check stands between an old read and the tables.
 */
module Interleaving {
  import opened Prelude
  import opened Int64
  import opened MoneyDomain
  import opened WalletDomain
  import opened WagerDomain
  import opened Store
  import opened Engine
  import opened Runs
  import opened References
  import opened Balances
  import opened Agreement
  import Ledger = LedgerDomain

  /**
   * The committed tables, and what clients remember: a wallet row, a reversal that passed its checks and its target,
   * a parked row listed at some time, a listed row that passed its checks and its target.
   */
  datatype System = System(world: World, seen: map<nat, WalletRow>, vetted: map<nat, (Command, Id)>,
                           listed: map<nat, (Tx, Time)>, cleared: map<nat, (Tx, Time, Id)>)

  /** Which row a movement is computed from: the stored one, under its lock, or one read earlier. */
  datatype Source = Stored | Seen

  datatype Act =
    | Locked(step: Step)
    | Look(client: nat, walletID: Id)
    | CommitSeen(client: nat, cmd: Command)
    | Vet(client: nat, cmd: Command)
    | ReverseVetted(client: nat, source: Source)
    | List(client: nat, id: Id, now: Time)
    | AttemptListed(client: nat)
    | Clear(client: nat)
    | SettleCleared(client: nat, source: Source)

  // ---- the use cases' bodies, on a wallet row read now or long ago ----

  /** `Settle` on a given row. */
  function SettleOn(w: World, t: Tx, row: WalletRow, reference: Option<Id>, direction: Ledger.Direction,
                    code: FailureCode, now: Time): Written
  {
    match MoveOf(row, direction, t.ident.money, now)
    case Err(InsufficientBalance) => Refuse(w, t, code, now)
    case Err(e) => Err(e)
    case Ok(moved) => Commit(w, Attach(t, reference), moved.0, row.version, moved.1, direction, now)
  }

  /** A bet, a win or a loss on a given row. */
  ghost function BodyOn(w: World, t: Tx, row: WalletRow, now: Time): Written {
    match t.ident.kind
    case Bet => SettleOn(w, t, row, None, Ledger.Debit, InsufficientFunds, now)
    case Win => SettleOn(w, t, row, FindExternal(w.txs, t.ident.providerID, t.ident.reference), Ledger.Credit,
                         InsufficientFunds, now)
    case Loss => Finish(w, t, row.balance, now)
    case _ => Err(InvalidKindForOperation)
  }

  ghost function CreateOn(w: World, cmd: Command, row: WalletRow): Written {
    var p := IdentOf(cmd, w.next);
    if ExternalFault(p).Some? then Err(ExternalFault(p).value)
    else
      match InsertTx(w.(next := w.next + 1), FreshTx(p))
      case Err(e) => Err(e)
      case Ok(w1) => BodyOn(w1, FreshTx(p), row, cmd.now)
  }

  function DirectionBack(txs: map<Id, TxRow>, target: Id): Ledger.Direction
    requires target in txs
  {
    ReversalDirection(txs[target].tx.ident.kind)
  }

  /** The tail of a reversal whose reference was checked and counted before. */
  function ReverseOn(w: World, cmd: Command, target: Id, row: WalletRow): Written
    requires target in w.txs
  {
    var p := IdentOf(cmd, w.next);
    if ExternalFault(p).Some? then Err(ExternalFault(p).value)
    else
      match InsertTx(w.(next := w.next + 1), FreshTx(p))
      case Err(e) => Err(e)
      case Ok(w1) =>
        SettleOn(w1, FreshTx(p), row, Some(target), DirectionBack(w.txs, target), ReversalExceedsBalance, cmd.now)
  }

  /** The tail of the resolver's attempt on a listed row whose reference was checked and counted before. */
  function SettleListed(w: World, t: Tx, target: Id, row: WalletRow, now: Time): Written
    requires target in w.txs
  {
    SettleOn(w, t, row, Some(target), DirectionBack(w.txs, target), ReversalExceedsBalance, now)
  }

  /** The checks that come before the wallet lock. */
  ghost predicate Passes(w: World, p: Ident, target: Id) {
    && target in w.txs && FindExternal(w.txs, p.providerID, p.reference) == Some(target)
    && ReferenceFault(p, w.txs[target].tx) == NoCode && Unreversed(w.txs, target)
  }

  ghost predicate Vets(w: World, cmd: Command, target: Id) {
    RequiresReference(cmd.kind) && Passes(w, IdentOf(cmd, w.next), target)
  }

  function RowFor(s: System, client: nat, source: Source, walletID: Id): Option<WalletRow> {
    match source
    case Stored => if walletID in s.world.wallets then Some(s.world.wallets[walletID]) else None
    case Seen =>
      if client in s.seen && s.seen[client].id == walletID then Some(s.seen[client]) else None
  }

  // ---- acts ----

  /** What an act on something read earlier would commit, if it commits at all. */
  ghost function CommitOf(s: System, policy: RetryPolicy, act: Act): Option<World> {
    match act
    case CommitSeen(client, cmd) =>
      (match RowFor(s, client, Seen, cmd.walletID)
       case None => None
       case Some(row) => Committed(CreateOn(s.world, cmd, row)))
    case ReverseVetted(client, source) =>
      if client !in s.vetted || s.vetted[client].1 !in s.world.txs then None
      else
        (match RowFor(s, client, source, s.vetted[client].0.walletID)
         case None => None
         case Some(row) => Committed(ReverseOn(s.world, s.vetted[client].0, s.vetted[client].1, row)))
    case AttemptListed(client) =>
      if client !in s.listed then None
      else
        var r := Attempt(s.world, policy, s.listed[client].0, s.listed[client].1);
        if r.Ok? then Some(r.value.0) else None
    case SettleCleared(client, source) =>
      if client !in s.cleared || s.cleared[client].2 !in s.world.txs then None
      else
        var (t, now, target) := s.cleared[client];
        (match RowFor(s, client, source, t.ident.walletID)
         case None => None
         case Some(row) => Committed(SettleListed(s.world, t, target, row, now)))
    case _ => None
  }

  function Committed(r: Written): Option<World> {
    match r
    case Err(_) => None
    case Ok(done) => Some(done.0)
  }

  ghost function Perform(s: System, policy: RetryPolicy, act: Act): System {
    match act
    case Locked(step) => s.(world := After(s.world, policy, step))
    case Look(client, walletID) =>
      if walletID in s.world.wallets then s.(seen := s.seen[client := s.world.wallets[walletID]]) else s
    case Vet(client, cmd) =>
      var found := FindExternal(s.world.txs, cmd.providerID, cmd.reference);
      if found.Some? && Vets(s.world, cmd, found.value)
      then s.(vetted := s.vetted[client := (cmd, found.value)]) else s
    case List(client, id, now) =>
      if id in s.world.txs && Due(s.world.txs[id], now)
      then s.(listed := s.listed[client := (s.world.txs[id].tx, now)]) else s
    case Clear(client) =>
      if client !in s.listed then s
      else
        var (t, now) := s.listed[client];
        var found := FindExternal(s.world.txs, t.ident.providerID, t.ident.reference);
        if found.Some? && Passes(s.world, t.ident, found.value)
        then s.(cleared := s.cleared[client := (t, now, found.value)]) else s
    case _ =>
      var done := CommitOf(s, policy, act);
      if done.Some? then s.(world := done.value) else s
  }

  ghost function Play(policy: RetryPolicy, acts: seq<Act>): System {
    if acts == [] then System(EMPTY, map[], map[], map[], map[])
    else Perform(Play(policy, acts[..|acts| - 1]), policy, acts[|acts| - 1])
  }

  // ---- what a memory is still good for ----

  /** A read is never ahead of the stored row, and with the stored version it is the stored row. */
  ghost predicate Past(wallets: map<Id, WalletRow>, seen: WalletRow) {
    && seen.id in wallets && seen.version <= wallets[seen.id].version
    && (seen.version == wallets[seen.id].version ==> seen == wallets[seen.id])
  }

  /** A checked reversal still knows its target; the check itself may have become outdated. */
  ghost predicate Known(txs: map<Id, TxRow>, kind: Kind, provider: string, reference: string, target: Id) {
    RequiresReference(kind) && target in txs && HasExternal(txs[target].tx, provider, reference)
  }

  /** A listed row is still there, with its identity; whether it is still parked is another matter. */
  ghost predicate Snapshot(txs: map<Id, TxRow>, t: Tx) {
    && t.ident.id in txs && txs[t.ident.id].tx.ident == t.ident
    && t.status.PendingReference? && Unmoved(t) && ExternalFault(t.ident) == None
  }

  ghost predicate Reads(s: System) {
    && (forall c :: c in s.seen ==> Past(s.world.wallets, s.seen[c]))
    && (forall c :: c in s.vetted ==>
          var cmd := s.vetted[c].0; Known(s.world.txs, cmd.kind, cmd.providerID, cmd.reference, s.vetted[c].1))
    && (forall c :: c in s.listed ==> Snapshot(s.world.txs, s.listed[c].0))
    && (forall c :: c in s.cleared ==> Snapshot(s.world.txs, s.cleared[c].0) && Targets(s.world.txs, s.cleared[c]))
  }

  ghost predicate Targets(txs: map<Id, TxRow>, c: (Tx, Time, Id)) {
    Known(txs, c.0.ident.kind, c.0.ident.providerID, c.0.ident.reference, c.2)
  }

  /** Wallets are never deleted, and a row that changes gets a higher version. */
  lemma VersionsRise(w: World, w': World, c: Change, seen: WalletRow)
    requires Sound(w) && Rewrites(w, w', c) && Past(w.wallets, seen)
    ensures Past(w'.wallets, seen)
  {
    hide UniqueKeys, RowSound, Wrote, Rewritable, AnnouncedMove, AnnouncedNote, Unmoved, Told, Unowned;
  }

  /** A movement computed from an outdated read does not commit. */
  lemma StaleReadsFail(w: World, p: Ident, seen: WalletRow, row: WalletRow, m: Movement, direction: Ledger.Direction,
                       now: Time)
    requires row.id == seen.id && seen.id in w.wallets && seen.version != w.wallets[seen.id].version
    ensures Book(w, p, row, seen.version, m, direction, now).Err?
  {
  }

  lemma MovedKeepsID(row: WalletRow, direction: Ledger.Direction, amount: Money, now: Time)
    requires MoveOf(row, direction, amount, now).Ok?
    ensures MoveOf(row, direction, amount, now).value.0.id == row.id
  {
  }

  /** A settlement that moves money was computed from the stored row. */
  lemma SettledIsCurrent(w: World, t: Tx, row: WalletRow, reference: Option<Id>, direction: Ledger.Direction,
                         code: FailureCode, now: Time)
    requires Past(w.wallets, row) && SettleOn(w, t, row, reference, direction, code, now).Ok?
    requires MoveOf(row, direction, t.ident.money, now).Ok?
    ensures row == w.wallets[row.id]
  {
    hide Finish, InsertEntry, UpdateWallet, Ledger.New, DebitOf, CreditOf;
    var moved := MoveOf(row, direction, t.ident.money, now).value;
    MovedKeepsID(row, direction, t.ident.money, now);
    hide Book;
    if row.version != w.wallets[row.id].version {
      StaleReadsFail(w, Attach(t, reference).ident, row, moved.0, moved.1, direction, now);
    }
  }

  predicate Refuses(row: WalletRow, direction: Ledger.Direction, amount: Money, now: Time) {
    MoveOf(row, direction, amount, now) == Err(InsufficientBalance)
  }

  /** An old read that refuses is right only if the stored row refuses too. */
  predicate SameCover(w: World, row: WalletRow, direction: Ledger.Direction, amount: Money, now: Time) {
    && row.id in w.wallets
    && (Refuses(row, direction, amount, now) ==> Refuses(w.wallets[row.id], direction, amount, now))
  }

  /** A settlement on a read that commits is the settlement under the lock exactly when both cover or neither does. */
  lemma SettlesAsStoredExactly(w: World, t: Tx, row: WalletRow, reference: Option<Id>, direction: Ledger.Direction,
                               code: FailureCode, now: Time)
    requires Past(w.wallets, row) && row.id == t.ident.walletID && t.failure == NoCode && code != NoCode
    requires SettleOn(w, t, row, reference, direction, code, now).Ok?
    ensures SettleOn(w, t, row, reference, direction, code, now) == Settle(w, t, reference, direction, code, now)
            <==> SameCover(w, row, direction, t.ident.money, now)
  {
    hide UpdateTx, Book, DebitOf, CreditOf;
    if MoveOf(row, direction, t.ident.money, now).Ok? {
      SettledIsCurrent(w, t, row, reference, direction, code, now);
    }
  }

  // ---- what a commit does to the tables ----

  /** The row of `p` was written, with a note or a movement. */
  ghost predicate Effected(w: World, w': World, p: Ident) {
    || (exists t: Tx :: t.ident == p && Notes(w, w', t))
    || (exists b: Booking :: b.tx.ident == p && Moved(w, w', b))
  }

  lemma EffectRewrites(w: World, w': World, p: Ident)
    requires Rewritable(w, p) && Effected(w, w', p)
    ensures exists c :: Rewrites(w, w', c)
  {
    hide Rewritable, Notes, Moved;
    if t: Tx :| t.ident == p && Notes(w, w', t) {
      assert Rewrites(w, w', Noted(t));
    } else {
      var b: Booking :| b.tx.ident == p && Moved(w, w', b);
      assert Rewrites(w, w', Booked(b));
    }
  }

  /** What was done to a freshly inserted row was done to the tables before the insertion. */
  lemma EffectLifts(w: World, p: Ident, w1: World, w': World)
    requires p.id == w.next && p.id !in w.txs && Effected(w1, w', p)
    requires w1 == w.(txs := w.txs[p.id := TxRow(FreshTx(p), 0, None)], next := w.next + 1)
    ensures Effected(w, w', p)
  {
    hide Unmoved, Carried, Wrote;
    var row := TxRow(FreshTx(p), 0, None);
    if t: Tx :| t.ident == p && Notes(w1, w', t) {
      LiftWrote(w.txs, row, w'.txs, t);
      assert Notes(w, w', t);
    } else {
      var b: Booking :| b.tx.ident == p && Moved(w1, w', b);
      LiftWrote(w.txs, row, w'.txs, b.tx);
      assert Moved(w, w', b);
    }
  }

  lemma RefuseHasEffect(w: World, t: Tx, code: FailureCode, now: Time)
    requires InMemory(w, t) && code != NoCode
    ensures Refuse(w, t, code, now).Ok? && Effected(w, Refuse(w, t, code, now).value.0, t.ident)
  {
    hide Refuse, Notes;
    RefuseEffect(w, t, code, now);
    assert Notes(w, Refuse(w, t, code, now).value.0, RejectedTx(t, code, now));
  }

  /** A settlement on any past read is refused or moves the wallet. */
  lemma SettleOnHasEffect(w: World, t: Tx, row: WalletRow, reference: Option<Id>, direction: Ledger.Direction,
                          code: FailureCode, now: Time)
    requires InMemory(w, t) && Past(w.wallets, row) && row.id == t.ident.walletID && Moves(t.ident.kind)
    requires code != NoCode && (reference.Some? ==> reference.value in w.txs)
    requires SettleOn(w, t, row, reference, direction, code, now).Ok?
    ensures Effected(w, SettleOn(w, t, row, reference, direction, code, now).value.0, t.ident)
  {
    hide Refuse, Notes, Moved, DebitOf, CreditOf, Commit;
    match MoveOf(row, direction, t.ident.money, now)
    case Err(InsufficientBalance) => RefuseHasEffect(w, t, code, now);
    case Ok(moved) =>
      SettledIsCurrent(w, t, row, reference, direction, code, now);
      var b := CommitEffect(w, Attach(t, reference), row, moved.0, moved.1, direction, now);
      assert b.tx.ident == t.ident;
  }

  /** Where a row was accepted for insertion. */
  lemma Inserts(w: World, p: Ident)
    requires Sound(w) && p.id == w.next && ExternalFault(p) == None
    requires InsertTx(w.(next := w.next + 1), FreshTx(p)).Ok?
    ensures var w1 := w.(txs := w.txs[p.id := TxRow(FreshTx(p), 0, None)], next := w.next + 1);
            && InsertTx(w.(next := w.next + 1), FreshTx(p)).value == w1
            && p.id !in w.txs && Rewritable(w, p) && Writable(w, p) && InMemory(w1, FreshTx(p))
  {
    hide Sound, InsertTx, Writable, Rewritable;
    InsertEffect(w, p);
    WritableIsRewritable(w, p);
  }

  lemma BodyHasEffect(w: World, t: Tx, row: WalletRow, now: Time)
    requires InMemory(w, t) && Past(w.wallets, row) && row.id == t.ident.walletID && BodyOn(w, t, row, now).Ok?
    ensures Effected(w, BodyOn(w, t, row, now).value.0, t.ident)
  {
    hide SettleOn, Past, Finish, Wrote, AnnouncedNote, Told;
    match t.ident.kind
    case Bet => SettleOnHasEffect(w, t, row, None, Ledger.Debit, InsufficientFunds, now);
    case Win =>
      var reference := FindExternal(w.txs, t.ident.providerID, t.ident.reference);
      SettleOnHasEffect(w, t, row, reference, Ledger.Credit, InsufficientFunds, now);
    case Loss =>
      FinishEffect(w, t, row.balance, now);
      assert Notes(w, BodyOn(w, t, row, now).value.0, Persisted(ProcessedTx(t, row.balance, now)));
    case _ =>
  }

  lemma CreateOnRewrites(w: World, cmd: Command, row: WalletRow)
    requires Sound(w) && Past(w.wallets, row) && row.id == cmd.walletID && CreateOn(w, cmd, row).Ok?
    ensures exists c :: Rewrites(w, CreateOn(w, cmd, row).value.0, c)
  {
    hide Sound, BodyOn, InsertTx, Effected, Rewrites, Rewritable, InMemory, CanonicalPayload, ExternalFault;
    var p := IdentOf(cmd, w.next);
    Inserts(w, p);
    var w1 := InsertTx(w.(next := w.next + 1), FreshTx(p)).value;
    BodyHasEffect(w1, FreshTx(p), row, cmd.now);
    EffectLifts(w, p, w1, CreateOn(w, cmd, row).value.0);
    EffectRewrites(w, CreateOn(w, cmd, row).value.0, p);
  }

  lemma ReverseOnRewrites(w: World, cmd: Command, target: Id, row: WalletRow)
    requires Sound(w) && RequiresReference(cmd.kind) && target in w.txs
    requires Past(w.wallets, row) && row.id == cmd.walletID && ReverseOn(w, cmd, target, row).Ok?
    ensures exists c :: Rewrites(w, ReverseOn(w, cmd, target, row).value.0, c)
  {
    hide Sound, SettleOn, InsertTx, Effected, Rewrites, Rewritable, InMemory, CanonicalPayload, ExternalFault;
    var p := IdentOf(cmd, w.next);
    Inserts(w, p);
    var w1 := InsertTx(w.(next := w.next + 1), FreshTx(p)).value;
    SettleOnHasEffect(w1, FreshTx(p), row, Some(target), DirectionBack(w.txs, target), ReversalExceedsBalance, cmd.now);
    EffectLifts(w, p, w1, ReverseOn(w, cmd, target, row).value.0);
    EffectRewrites(w, ReverseOn(w, cmd, target, row).value.0, p);
  }

  lemma SnapshotInMemory(w: World, t: Tx)
    requires Snapshot(w.txs, t)
    ensures InMemory(w, t) && Rewritable(w, t.ident) && RequiresReference(t.ident.kind)
  {
  }

  lemma SettleListedRewrites(w: World, t: Tx, target: Id, row: WalletRow, now: Time)
    requires Sound(w) && Snapshot(w.txs, t) && target in w.txs
    requires Past(w.wallets, row) && row.id == t.ident.walletID && SettleListed(w, t, target, row, now).Ok?
    ensures exists c :: Rewrites(w, SettleListed(w, t, target, row, now).value.0, c)
  {
    hide Sound, SettleOn, Effected, Rewrites, Rewritable, InMemory, Snapshot;
    SnapshotInMemory(w, t);
    SettleOnHasEffect(w, t, row, Some(target), DirectionBack(w.txs, target), ReversalExceedsBalance, now);
    EffectRewrites(w, SettleListed(w, t, target, row, now).value.0, t.ident);
  }

  /** A whole attempt on a listed row, outdated or not. */
  lemma AttemptRewrites(w: World, policy: RetryPolicy, t: Tx, now: Time)
    requires Sound(w) && Snapshot(w.txs, t) && Attempt(w, policy, t, now).Ok?
    ensures exists c :: Rewrites(w, Attempt(w, policy, t, now).value.0, c)
  {
    hide Sound, Reverse, Rewrites, Rewritable, InMemory, Snapshot, Refuse, Effected;
    SnapshotInMemory(w, t);
    match FindExternal(w.txs, t.ident.providerID, t.ident.reference)
    case None =>
      if now - t.ident.createdAt >= policy.maxAge {
        RefuseHasEffect(w, t, FailureCode.ReferenceNotFound, now);
        EffectRewrites(w, Attempt(w, policy, t, now).value.0, t.ident);
      } else {
        PutOffRewrites(w, policy, t, now);
      }
    case Some(target) =>
      ReverseHasEffect(w, t, target, now);
      EffectRewrites(w, Attempt(w, policy, t, now).value.0, t.ident);
  }

  lemma PutOffRewrites(w: World, policy: RetryPolicy, t: Tx, now: Time)
    requires Snapshot(w.txs, t)
    ensures var w' := RecordAttempt(w, t.ident.id, 1, now + policy.baseBackoff);
            Rewrites(w, w', Rescheduled(t.ident.id))
  {
    hide Unmoved, ExternalFault;
  }

  lemma ReverseHasEffect(w: World, t: Tx, target: Id, now: Time)
    requires Sound(w) && Snapshot(w.txs, t) && target in w.txs && Reverse(w, t, target, now).Ok?
    ensures Effected(w, Reverse(w, t, target, now).value.0, t.ident)
  {
    hide Refuse, SettleOn, Effected, InMemory, Rewritable, ReferenceFault, CountReversals, Snapshot, MoveOf, Commit;
    SnapshotInMemory(w, t);
    var code := ReferenceFault(t.ident, w.txs[target].tx);
    if code != NoCode {
      RefuseHasEffect(w, t, code, now);
    } else if CountReversals(w.txs, target, Refund) + CountReversals(w.txs, target, Rollback) > 0 {
      RefuseHasEffect(w, t, DuplicateReversal, now);
    } else {
      var direction := ReversalDirection(w.txs[target].tx.ident.kind);
      StoredIsPast(w, t.ident.walletID);
      SettleIsOnStored(w, t, Some(target), direction, ReversalExceedsBalance, now);
      SettleOnHasEffect(w, t, w.wallets[t.ident.walletID], Some(target), direction, ReversalExceedsBalance, now);
    }
  }

  lemma SettleIsOnStored(w: World, t: Tx, reference: Option<Id>, direction: Ledger.Direction,
                         code: FailureCode, now: Time)
    ensures Settle(w, t, reference, direction, code, now)
            == if t.ident.walletID !in w.wallets then Err(NotFound)
               else SettleOn(w, t, w.wallets[t.ident.walletID], reference, direction, code, now)
  {
    hide Refuse, Commit, MoveOf;
  }

  lemma StoredIsPast(w: World, walletID: Id)
    requires Sound(w) && walletID in w.wallets
    ensures Past(w.wallets, w.wallets[walletID]) && w.wallets[walletID].id == walletID
  {
  }

  /** Whatever an act commits, the tables change in one of the six ways, ended rows not excepted. */
  lemma OutcomeRewrites(s: System, policy: RetryPolicy, act: Act)
    requires Sound(s.world) && Reads(s) && CommitOf(s, policy, act).Some?
    ensures exists c :: Rewrites(s.world, CommitOf(s, policy, act).value, c)
  {
    hide Sound, Rewrites, CreateOn, ReverseOn, SettleListed, Attempt, Past, Snapshot;
    match act
    case CommitSeen(client, cmd) => CreateOnRewrites(s.world, cmd, s.seen[client]);
    case ReverseVetted(client, source) =>
      var (cmd, target) := s.vetted[client];
      RowIsPast(s, client, source, cmd.walletID);
      ReverseOnRewrites(s.world, cmd, target, RowFor(s, client, source, cmd.walletID).value);
    case AttemptListed(client) => AttemptRewrites(s.world, policy, s.listed[client].0, s.listed[client].1);
    case SettleCleared(client, source) =>
      var (t, now, target) := s.cleared[client];
      RowIsPast(s, client, source, t.ident.walletID);
      SettleListedRewrites(s.world, t, target, RowFor(s, client, source, t.ident.walletID).value, now);
  }

  lemma RowIsPast(s: System, client: nat, source: Source, walletID: Id)
    requires Sound(s.world) && Reads(s) && RowFor(s, client, source, walletID).Some?
    ensures var row := RowFor(s, client, source, walletID).value; Past(s.world.wallets, row) && row.id == walletID
  {
    hide UniqueKeys, RowSound, Snapshot, Known;
  }

  // ---- what every interleaving keeps ----

  ghost predicate Kept(s: System) {
    Sound(s.world) && Balanced(s.world) && EventsKnown(s.world) && Reads(s)
  }

  lemma MemoriesKept(s: System, w': World, c: Change)
    requires Sound(s.world) && Reads(s) && Rewrites(s.world, w', c)
    ensures Reads(s.(world := w'))
  {
    hide Sound, Rewrites, Past, Unmoved, ExternalFault;
    RewriteExtends(s.world, w', c);
    forall i | i in s.seen
      ensures Past(w'.wallets, s.seen[i])
    {
      VersionsRise(s.world, w', c, s.seen[i]);
    }
  }

  /** Whatever a client commits, if it changes the tables in one of the six ways, the invariant survives. */
  lemma RewriteKeeps(s: System, w': World, c: Change)
    requires Kept(s) && Rewrites(s.world, w', c)
    ensures Kept(s.(world := w'))
  {
    hide Sound, Balanced, EventsKnown, Rewrites, Reads;
    SoundRewritten(s.world, w', c);
    BalancedRewritten(s.world, w', c);
    EventsKnownRewritten(s.world, w', c);
    MemoriesKept(s, w', c);
  }

  lemma ActKeeps(s: System, policy: RetryPolicy, act: Act)
    requires Kept(s)
    ensures Kept(Perform(s, policy, act))
  {
    hide Rewrites, Alters, Sound, Balanced, EventsKnown, After, Reads, CommitOf, Passes, Due;
    var s' := Perform(s, policy, act);
    match act
    case Locked(step) =>
      StepChanges(s.world, policy, step);
      var c :| Changes(s.world, s'.world, c);
      AlterationRewrites(s.world, s'.world, c);
      RewriteKeeps(s, s'.world, c);
    case Look(client, walletID) => LookRemembers(s, policy, act);
    case Vet(client, cmd) => CheckRemembers(s, policy, act);
    case List(client, id, now) => ListRemembers(s, policy, act);
    case Clear(client) => CheckRemembers(s, policy, act);
    case _ =>
      if CommitOf(s, policy, act).Some? {
        OutcomeRewrites(s, policy, act);
        var c :| Rewrites(s.world, s'.world, c);
        RewriteKeeps(s, s'.world, c);
      }
  }

  lemma LookRemembers(s: System, policy: RetryPolicy, act: Act)
    requires Sound(s.world) && Reads(s) && act.Look?
    ensures Reads(Perform(s, policy, act)) && Perform(s, policy, act).world == s.world
  {
    hide Sound, Snapshot, Known, CommitOf, After;
    if act.walletID in s.world.wallets {
      StoredIsPast(s.world, act.walletID);
    }
  }

  lemma CheckRemembers(s: System, policy: RetryPolicy, act: Act)
    requires Reads(s) && (act.Vet? || act.Clear?)
    ensures Reads(Perform(s, policy, act)) && Perform(s, policy, act).world == s.world
  {
    hide Past, Passes, CanonicalPayload, ExternalFault, CommitOf, After, Snapshot;
    if act.Clear? && act.client in s.listed {
      var t := s.listed[act.client].0;
      SnapshotInMemory(s.world, t);
      PassesOnFound(s.world, t.ident);
    } else if act.Vet? {
      PassesOnFound(s.world, IdentOf(act.cmd, s.world.next));
    }
  }

  /** What passes the checks is known. */
  lemma PassesOnFound(w: World, p: Ident)
    ensures var found := FindExternal(w.txs, p.providerID, p.reference);
            found.Some? && Passes(w, p, found.value) && RequiresReference(p.kind) ==>
              Known(w.txs, p.kind, p.providerID, p.reference, found.value)
  {
    hide Unreversed, ReferenceFault;
  }

  lemma ListRemembers(s: System, policy: RetryPolicy, act: Act)
    requires Sound(s.world) && Reads(s) && act.List?
    ensures Reads(Perform(s, policy, act)) && Perform(s, policy, act).world == s.world
  {
    hide Sound, Past, Known, Snapshot, CommitOf, After;
    if act.id in s.world.txs && Due(s.world.txs[act.id], act.now) {
      DueIsSnapshot(s.world, act.id, act.now);
    }
  }

  lemma DueIsSnapshot(w: World, id: Id, now: Time)
    requires Sound(w) && id in w.txs && Due(w.txs[id], now)
    ensures Snapshot(w.txs, w.txs[id].tx)
  {
    hide UniqueKeys, ExternalFault;
    assert RowSound(w.txs[id].tx);
  }

  lemma {:induction false} PlayKeeps(policy: RetryPolicy, acts: seq<Act>)
    ensures Kept(Play(policy, acts))
  {
    hide Perform;
    if acts != [] {
      PlayKeeps(policy, acts[..|acts| - 1]);
      hide Kept;
      ActKeeps(Play(policy, acts[..|acts| - 1]), policy, acts[|acts| - 1]);
    }
  }

  /**
   * No update is lost: however many clients and resolvers interleave, with reads of wallets and of parked rows as old
   * as they like and checks made at any earlier time, every balance is the signed sum of its ledger, no prefix of
   * which is negative or too large, and the version is one more than the number of movements.
   */
  lemma NoLostUpdate(policy: RetryPolicy, acts: seq<Act>, id: Id)
    requires id in Play(policy, acts).world.wallets
    ensures var w := Play(policy, acts).world; Explains(w.txs, EntriesOf(w.ledger, id), w.wallets[id])
  {
    hide Play, EntriesOf, EventsOf, History, Explains, Sound, EventsKnown, Reads;
    var w := Play(policy, acts).world;
    PlayKeeps(policy, acts);
    HistoryExplains(w.txs, EntriesOf(w.ledger, id), EventsOf(w.outbox, id), w.wallets[id]);
  }

  // ---- commits that are serial, exactly ----

  /** A bet or a win that moves money from a read is what the serial machine makes of a read that is current. */
  lemma MoveCommitsExactly(w: World, cmd: Command, seen: WalletRow)
    requires Sound(w) && Past(w.wallets, seen) && seen.id == cmd.walletID && (cmd.kind.Bet? || cmd.kind.Win?)
    ensures CreateOn(w, cmd, seen).Ok? && CreateOn(w, cmd, seen).value.1.status.Processed?
            <==> seen == w.wallets[seen.id] && Create(w, cmd).Ok? && Create(w, cmd).value.1.status.Processed?
  {
    hide Sound, SettleOn, Settle, InsertTx, CanonicalPayload, ExternalFault;
    var p := IdentOf(cmd, w.next);
    StoredIsPast(w, seen.id);
    hide Past;
    if ExternalFault(p) == None && InsertTx(w.(next := w.next + 1), FreshTx(p)).Ok? {
      Inserts(w, p);
      var w1 := InsertTx(w.(next := w.next + 1), FreshTx(p)).value;
      var reference := if cmd.kind.Win? then FindExternal(w1.txs, p.providerID, p.reference) else None;
      var direction := if cmd.kind.Bet? then Ledger.Debit else Ledger.Credit;
      SettleIsOnStored(w1, FreshTx(p), reference, direction, InsufficientFunds, cmd.now);
      ProcessedIsCurrent(w1, FreshTx(p), seen, reference, direction, InsufficientFunds, cmd.now);
    }
  }

  lemma ProcessedIsCurrent(w: World, t: Tx, row: WalletRow, reference: Option<Id>, direction: Ledger.Direction,
                           code: FailureCode, now: Time)
    requires Past(w.wallets, row)
    ensures var r := SettleOn(w, t, row, reference, direction, code, now);
            r.Ok? && r.value.1.status.Processed? ==> row == w.wallets[row.id]
  {
    hide Commit, UpdateTx, DebitOf, CreditOf;
    if SettleOn(w, t, row, reference, direction, code, now).Ok? && MoveOf(row, direction, t.ident.money, now).Ok? {
      SettledIsCurrent(w, t, row, reference, direction, code, now);
    }
  }

  /** What a commit on a read needs of the read to be the serial commit. */
  ghost predicate ReadHolds(w: World, cmd: Command, row: WalletRow) {
    match cmd.kind
    case Bet => SameCover(w, row, Ledger.Debit, cmd.amount, cmd.now)
    case Win => SameCover(w, row, Ledger.Credit, cmd.amount, cmd.now)
    case _ => row.id in w.wallets && row.balance == w.wallets[row.id].balance
  }

  /**
   * A bet, a win or a loss that commits from a read commits as it would serially exactly when the read still holds:
   * a refusal needs the stored balance to refuse too, and a loss needs the balance it tells.
   */
  lemma SeenIsSerialExactly(w: World, cmd: Command, seen: WalletRow)
    requires Sound(w) && Past(w.wallets, seen) && seen.id == cmd.walletID && CreateOn(w, cmd, seen).Ok?
    ensures CreateOn(w, cmd, seen) == Create(w, cmd) <==> ReadHolds(w, cmd, seen)
  {
    hide Sound, SettleOn, Settle, InsertTx, CanonicalPayload, ExternalFault, Finish, Refuses;
    var p := IdentOf(cmd, w.next);
    Inserts(w, p);
    var w1 := InsertTx(w.(next := w.next + 1), FreshTx(p)).value;
    match cmd.kind
    case Bet => SettlesAsStoredExactly(w1, FreshTx(p), seen, None, Ledger.Debit, InsufficientFunds, cmd.now);
    case Win =>
      var reference := FindExternal(w1.txs, p.providerID, p.reference);
      SettlesAsStoredExactly(w1, FreshTx(p), seen, reference, Ledger.Credit, InsufficientFunds, cmd.now);
    case Loss => FinishTells(w1, FreshTx(p), seen.balance, w.wallets[seen.id].balance, cmd.now);
    case _ =>
  }

  lemma FinishTells(w: World, t: Tx, one: Money, other: Money, now: Time)
    requires Finish(w, t, one, now).Ok?
    ensures Finish(w, t, one, now) == Finish(w, t, other, now) <==> one == other
  {
    hide UpdateTx;
  }

  /** The check made before the lock still passes, and the row the movement is computed from covers it as stored. */
  ghost predicate CheckHolds(w: World, p: Ident, target: Id, row: WalletRow, now: Time)
    requires target in w.txs
  {
    && ReferenceFault(p, w.txs[target].tx) == NoCode && Unreversed(w.txs, target)
    && SameCover(w, row, DirectionBack(w.txs, target), p.money, now)
  }

  /** The tail of a reversal is the whole reversal exactly when its earlier check still holds. */
  lemma TailIsWholeExactly(w: World, t: Tx, target: Id, row: WalletRow, now: Time)
    requires target in w.txs && InMemory(w, t) && Past(w.wallets, row) && row.id == t.ident.walletID
    requires SettleListed(w, t, target, row, now).Ok?
    ensures SettleListed(w, t, target, row, now) == Reverse(w, t, target, now)
       <==> CheckHolds(w, t.ident, target, row, now)
  {
    var code := ReferenceFault(t.ident, w.txs[target].tx);
    NoReversals(w.txs, target);
    SettlesAsStoredExactly(w, t, row, Some(target), DirectionBack(w.txs, target), ReversalExceedsBalance, now);
    TailNeverRefusesSo(w, t, target, row, now);
    hide SettleOn, Settle, SameCover, CountReversals, Unreversed, ReferenceFault;
    if code != NoCode {
      RefuseEffect(w, t, code, now);
      FaultIsNotTheTails(t.ident, w.txs[target].tx);
    } else if !Unreversed(w.txs, target) {
      RefuseEffect(w, t, DuplicateReversal, now);
    }
  }

  lemma FaultIsNotTheTails(p: Ident, ref: Tx)
    ensures ReferenceFault(p, ref) != ReversalExceedsBalance
  {
  }

  lemma TailNeverRefusesSo(w: World, t: Tx, target: Id, row: WalletRow, now: Time)
    requires target in w.txs && t.failure == NoCode && SettleListed(w, t, target, row, now).Ok?
    ensures var code := SettleListed(w, t, target, row, now).value.1.failure;
            code == NoCode || code == ReversalExceedsBalance
  {
    hide Book, UpdateTx, DebitOf, CreditOf;
  }

  /** Once its row is in, the serial reversal finds the target that was checked. */
  lemma CreateReverses(w: World, cmd: Command, target: Id, row: WalletRow)
    requires Sound(w) && Known(w.txs, cmd.kind, cmd.providerID, cmd.reference, target)
    requires ReverseOn(w, cmd, target, row).Ok?
    ensures var p := IdentOf(cmd, w.next);
            var w1 := w.(txs := w.txs[p.id := TxRow(FreshTx(p), 0, None)], next := w.next + 1);
            && InMemory(w1, FreshTx(p)) && p.id !in w.txs
            && Create(w, cmd) == Reverse(w1, FreshTx(p), target, cmd.now)
            && ReverseOn(w, cmd, target, row) == SettleListed(w1, FreshTx(p), target, row, cmd.now)
  {
    hide Sound, SettleOn, Reverse, Create, InMemory, CanonicalPayload, ExternalFault;
    var p := IdentOf(cmd, w.next);
    Inserts(w, p);
    hide InsertTx;
    SoundLookup(w, cmd.providerID, cmd.reference, target);
    DecidingIsReversing(w, cmd);
  }

  /**
   * A reversal checked earlier commits as it would serially exactly when its reference still passes, nothing reversed
   * it meanwhile, and a refusal is one the stored balance calls for.
   */
  lemma VettedIsSerialExactly(w: World, cmd: Command, target: Id, row: WalletRow)
    requires Sound(w) && Known(w.txs, cmd.kind, cmd.providerID, cmd.reference, target)
    requires Past(w.wallets, row) && row.id == cmd.walletID && ReverseOn(w, cmd, target, row).Ok?
    ensures ReverseOn(w, cmd, target, row) == Create(w, cmd)
            <==> CheckHolds(w, IdentOf(cmd, w.next), target, row, cmd.now)
  {
    CreateReverses(w, cmd, target, row);
    hide Sound, SettleListed, Reverse, Create, ReverseOn, CanonicalPayload, InMemory, ReferenceFault, Refuses;
    var p := IdentOf(cmd, w.next);
    var w1 := w.(txs := w.txs[p.id := TxRow(FreshTx(p), 0, None)], next := w.next + 1);
    TailIsWholeExactly(w1, FreshTx(p), target, row, cmd.now);
    SameReversals(w, w1, p, target);
    hide Unreversed;
  }

  /** The listed row is stored as it was listed, and still due. */
  predicate AsListed(w: World, t: Tx, now: Time) {
    t.ident.id in w.txs && w.txs[t.ident.id].tx == t && Due(w.txs[t.ident.id], now)
  }

  /** The resolver's attempt, checked earlier, is the serial attempt exactly under the same condition. */
  lemma ClearedIsSerialExactly(w: World, policy: RetryPolicy, t: Tx, target: Id, row: WalletRow, now: Time)
    requires Sound(w) && Snapshot(w.txs, t) && Known(w.txs, t.ident.kind, t.ident.providerID, t.ident.reference, target)
    requires Past(w.wallets, row) && row.id == t.ident.walletID && SettleListed(w, t, target, row, now).Ok?
    ensures Attempt(w, policy, t, now) == Resolved(Reverse(w, t, target, now))
    ensures SettleListed(w, t, target, row, now) == Reverse(w, t, target, now)
            <==> CheckHolds(w, t.ident, target, row, now)
  {
    hide Sound, SettleOn, Reverse, InMemory, Snapshot, CheckHolds, Rewritable;
    SoundLookup(w, t.ident.providerID, t.ident.reference, target);
    SnapshotInMemory(w, t);
    TailIsWholeExactly(w, t, target, row, now);
  }

  // ---- interleavings that are serial runs ----

  /** The serial steps an act amounts to, in the state it is performed in. */
  ghost function StepsOf(s: System, policy: RetryPolicy, act: Act): seq<Step> {
    match act
    case Locked(step) => [step]
    case CommitSeen(client, cmd) =>
      if CommitOf(s, policy, act).Some? then [Submit(cmd.(inbox := None), true)] else []
    case ReverseVetted(client, source) =>
      if CommitOf(s, policy, act).Some? then [Submit(s.vetted[client].0.(inbox := None), true)] else []
    case AttemptListed(client) =>
      if CommitOf(s, policy, act).Some?
      then [Resolve(s.listed[client].0.ident.id, s.listed[client].1, true)] else []
    case SettleCleared(client, source) =>
      if CommitOf(s, policy, act).Some?
      then [Resolve(s.cleared[client].0.ident.id, s.cleared[client].1, true)] else []
    case _ => []
  }

  /** What a committing act rests on still holds: its read, its check, its listed row. */
  ghost predicate Unraced(s: System, policy: RetryPolicy, act: Act) {
    CommitOf(s, policy, act).Some? ==>
      match act
      case CommitSeen(client, cmd) => ReadHolds(s.world, cmd, s.seen[client])
      case ReverseVetted(client, source) =>
        var (cmd, target) := s.vetted[client];
        CheckHolds(s.world, IdentOf(cmd, s.world.next), target, RowFor(s, client, source, cmd.walletID).value, cmd.now)
      case AttemptListed(client) => AsListed(s.world, s.listed[client].0, s.listed[client].1)
      case SettleCleared(client, source) =>
        var (t, now, target) := s.cleared[client];
        && AsListed(s.world, t, now)
        && CheckHolds(s.world, t.ident, target, RowFor(s, client, source, t.ident.walletID).value, now)
      case _ => true
  }

  ghost predicate AllUnraced(policy: RetryPolicy, acts: seq<Act>) {
    forall k :: 0 <= k < |acts| ==> Unraced(Play(policy, acts[..k]), policy, acts[k])
  }

  /** The locked steps and the committed acts, in commit order. */
  ghost function Serialized(policy: RetryPolicy, acts: seq<Act>): seq<Step> {
    if acts == [] then []
    else Serialized(policy, acts[..|acts| - 1]) + StepsOf(Play(policy, acts[..|acts| - 1]), policy, acts[|acts| - 1])
  }

  lemma SeenIsSerial(s: System, policy: RetryPolicy, act: Act)
    requires Kept(s) && act.CommitSeen? && CommitOf(s, policy, act).Some? && Unraced(s, policy, act)
    ensures CommitOf(s, policy, act).value == After(s.world, policy, StepsOf(s, policy, act)[0])
  {
    hide Sound, Balanced, EventsKnown, Past, Known, Snapshot, CreateOn, Create, After, ReadHolds;
    SeenIsSerialExactly(s.world, act.cmd, s.seen[act.client]);
    SerialStep(s.world, policy, act.cmd);
  }

  lemma VettedIsSerial(s: System, policy: RetryPolicy, act: Act)
    requires Kept(s) && act.ReverseVetted? && CommitOf(s, policy, act).Some? && Unraced(s, policy, act)
    ensures CommitOf(s, policy, act).value == After(s.world, policy, StepsOf(s, policy, act)[0])
  {
    hide Sound, Balanced, EventsKnown, Past, Snapshot, ReverseOn, Create, After, CheckHolds;
    var (cmd, target) := s.vetted[act.client];
    RowIsPast(s, act.client, act.source, cmd.walletID);
    VettedIsSerialExactly(s.world, cmd, target, RowFor(s, act.client, act.source, cmd.walletID).value);
    SerialStep(s.world, policy, cmd);
  }

  lemma ListedIsSerial(s: System, policy: RetryPolicy, act: Act)
    requires act.AttemptListed? && CommitOf(s, policy, act).Some? && Unraced(s, policy, act)
    ensures CommitOf(s, policy, act).value == After(s.world, policy, StepsOf(s, policy, act)[0])
  {
    hide Attempt, Due;
  }

  lemma ClearedIsSerial(s: System, policy: RetryPolicy, act: Act)
    requires Kept(s) && act.SettleCleared? && CommitOf(s, policy, act).Some? && Unraced(s, policy, act)
    ensures CommitOf(s, policy, act).value == After(s.world, policy, StepsOf(s, policy, act)[0])
  {
    hide Sound, Balanced, EventsKnown, Past, Snapshot, SettleListed, Reverse, CheckHolds, Attempt, Due, Known;
    var (t, now, target) := s.cleared[act.client];
    RowIsPast(s, act.client, act.source, t.ident.walletID);
    ClearedIsSerialExactly(s.world, policy, t, target, RowFor(s, act.client, act.source, t.ident.walletID).value, now);
  }

  lemma ActIsSerial(s: System, policy: RetryPolicy, act: Act)
    requires Kept(s) && Unraced(s, policy, act)
    ensures var steps := StepsOf(s, policy, act);
            && |steps| <= 1
            && Perform(s, policy, act).world == if steps == [] then s.world else After(s.world, policy, steps[0])
  {
    hide Kept, After, CommitOf, Unraced, Vets, Passes, Due;
    if CommitOf(s, policy, act).Some? {
      match act
      case CommitSeen(_, _) => SeenIsSerial(s, policy, act);
      case ReverseVetted(_, _) => VettedIsSerial(s, policy, act);
      case AttemptListed(_) => ListedIsSerial(s, policy, act);
      case SettleCleared(_, _) => ClearedIsSerial(s, policy, act);
      case _ =>
    }
  }

  /**
   * An interleaving in which no act outlives what it rests on leaves the tables of a serial run: the locked steps and
   * the committed acts, in the order in which they committed.
   */
  lemma {:induction false} InterleavingIsSerial(policy: RetryPolicy, acts: seq<Act>)
    requires AllUnraced(policy, acts)
    ensures Play(policy, acts).world == Run(policy, Serialized(policy, acts))
  {
    hide Perform, StepsOf, After, Kept, Unraced, Run;
    if acts == [] {
      EmptyRun(policy);
    } else {
      var before, act := acts[..|acts| - 1], acts[|acts| - 1];
      PrefixUnraced(policy, acts);
      InterleavingIsSerial(policy, before);
      PlayKeeps(policy, before);
      ActIsSerial(Play(policy, before), policy, act);
      var done, steps := Serialized(policy, before), StepsOf(Play(policy, before), policy, act);
      if steps == [] {
        assert done + steps == done;
      } else {
        assert steps == [steps[0]];
        RunAppends(policy, done, steps[0]);
      }
    }
  }

  lemma EmptyRun(policy: RetryPolicy)
    ensures Run(policy, []) == EMPTY
  {
  }

  lemma PrefixUnraced(policy: RetryPolicy, acts: seq<Act>)
    requires AllUnraced(policy, acts) && acts != []
    ensures AllUnraced(policy, acts[..|acts| - 1])
    ensures Unraced(Play(policy, acts[..|acts| - 1]), policy, acts[|acts| - 1])
  {
    hide Play, Unraced;
    var before := acts[..|acts| - 1];
    forall k | 0 <= k < |before|
      ensures Unraced(Play(policy, before[..k]), policy, before[k])
    {
      assert before[..k] == acts[..k];
      assert Unraced(Play(policy, acts[..k]), policy, acts[k]);
    }
  }

  // ---- at once ----

  lemma PlayAppends(policy: RetryPolicy, acts: seq<Act>, act: Act)
    ensures Play(policy, acts + [act]) == Perform(Play(policy, acts), policy, act)
  {
    hide Perform;
    assert (acts + [act])[..|acts|] == acts;
  }

  /** Submitting a command is creating it, or nothing. */
  lemma SubmitIsCreate(w: World, policy: RetryPolicy, cmd: Command)
    requires Sound(w)
    ensures After(w, policy, Submit(cmd.(inbox := None), true))
            == match Create(w, cmd)
               case Err(_) => w
               case Ok(done) => done.0
  {
    if Create(w, cmd).Ok? {
      SerialStep(w, policy, cmd);
    } else {
      hide Dispatch, InsertTx, Sound;
      assert Create(w, cmd.(inbox := None)) == Create(w, cmd);
    }
  }

  lemma NoWalletNoRow(w: World, cmd: Command)
    requires cmd.walletID !in w.wallets
    ensures Create(w, cmd).Err?
  {
    hide Dispatch, CanonicalPayload, Clashing;
  }

  /** On the stored row the body of a bet, a win or a loss is the serial one. */
  lemma CreateOnStored(w: World, cmd: Command)
    requires cmd.walletID in w.wallets && (cmd.kind.Bet? || cmd.kind.Win? || cmd.kind.Loss?)
    ensures CreateOn(w, cmd, w.wallets[cmd.walletID]) == Create(w, cmd)
  {
    hide SettleOn, Settle, Finish, Reverse, Park, CanonicalPayload, ExternalFault, Clashing, Persisted;
    var p := IdentOf(cmd, w.next);
    var inserted := InsertTx(w.(next := w.next + 1), FreshTx(p));
    if inserted.Ok? {
      var w1, t := inserted.value, FreshTx(p);
      match cmd.kind
      case Bet => SettleIsOnStored(w1, t, None, Ledger.Debit, InsufficientFunds, cmd.now);
      case Win =>
        var reference := FindExternal(w1.txs, p.providerID, p.reference);
        SettleIsOnStored(w1, t, reference, Ledger.Credit, InsufficientFunds, cmd.now);
      case _ =>
    }
  }

  /** What passes its check at this moment is reversed as it would be serially. */
  lemma ReverseOnStored(w: World, cmd: Command, target: Id)
    requires Sound(w) && Vets(w, cmd, target) && cmd.walletID in w.wallets
    ensures ReverseOn(w, cmd, target, w.wallets[cmd.walletID]) == Create(w, cmd)
  {
    hide Sound, SettleOn, Reverse, CanonicalPayload, ExternalFault, Unreversed;
    var p := IdentOf(cmd, w.next);
    UnusedIdentifier(w, w.next);
    if ExternalFault(p) == None && InsertTx(w.(next := w.next + 1), FreshTx(p)).Ok? {
      Inserts(w, p);
      var w1 := w.(txs := w.txs[p.id := TxRow(FreshTx(p), 0, None)], next := w.next + 1);
      hide InsertTx;
      DecidingIsReversing(w, cmd);
      hide Create;
      SameReversals(w, w1, p, target);
      ReverseSettles(w1, FreshTx(p), target, cmd.now);
    }
  }

  /** A reversal that passes is its tail, on the stored row. */
  lemma ReverseSettles(w: World, t: Tx, target: Id, now: Time)
    requires target in w.txs && ReferenceFault(t.ident, w.txs[target].tx) == NoCode && Unreversed(w.txs, target)
    requires t.ident.walletID in w.wallets
    ensures Reverse(w, t, target, now) == SettleListed(w, t, target, w.wallets[t.ident.walletID], now)
  {
    hide Settle, SettleOn, Refuse, ReferenceFault;
    NoReversals(w.txs, target);
    SettleIsOnStored(w, t, Some(target), DirectionBack(w.txs, target), ReversalExceedsBalance, now);
  }

  /**
   * Splitting a use case loses nothing: whatever was done before, a bet, a win or a loss that is committed right after
   * its wallet was read does what the serial step does.
   */
  lemma LookedAtOnce(policy: RetryPolicy, acts: seq<Act>, client: nat, cmd: Command)
    requires cmd.kind.Bet? || cmd.kind.Win? || cmd.kind.Loss?
    ensures Play(policy, acts + [Look(client, cmd.walletID)] + [CommitSeen(client, cmd)]).world
            == After(Play(policy, acts).world, policy, Submit(cmd.(inbox := None), true))
  {
    hide Play, After, Perform, Kept;
    PlayKeeps(policy, acts);
    PlayAppends(policy, acts, Look(client, cmd.walletID));
    PlayAppends(policy, acts + [Look(client, cmd.walletID)], CommitSeen(client, cmd));
    LookedInTurn(Play(policy, acts), policy, client, cmd);
  }

  lemma LookedInTurn(s: System, policy: RetryPolicy, client: nat, cmd: Command)
    requires Kept(s) && (cmd.kind.Bet? || cmd.kind.Win? || cmd.kind.Loss?)
    ensures var looked := Perform(s, policy, Look(client, cmd.walletID));
            Perform(looked, policy, CommitSeen(client, cmd)).world
            == After(s.world, policy, Submit(cmd.(inbox := None), true))
  {
    hide After, Create, CreateOn, Sound, Balanced, EventsKnown, Snapshot, Known, Targets;
    SubmitIsCreate(s.world, policy, cmd);
    if cmd.walletID in s.world.wallets {
      StoredIsPast(s.world, cmd.walletID);
      CreateOnStored(s.world, cmd);
      assert Perform(s, policy, Look(client, cmd.walletID)).seen[client] == s.world.wallets[cmd.walletID];
    } else {
      NoWalletNoRow(s.world, cmd);
    }
  }

  /** A reversal that is committed right after its check. */
  lemma VettedAtOnce(policy: RetryPolicy, acts: seq<Act>, client: nat, cmd: Command, target: Id)
    requires Vets(Play(policy, acts).world, cmd, target)
    ensures Play(policy, acts + [Vet(client, cmd)] + [ReverseVetted(client, Stored)]).world
            == After(Play(policy, acts).world, policy, Submit(cmd.(inbox := None), true))
  {
    hide Play, After, Create, ReverseOn, Sound, Balanced, EventsKnown, Reads, Unreversed, ReferenceFault;
    var s := Play(policy, acts);
    PlayKeeps(policy, acts);
    PlayAppends(policy, acts, Vet(client, cmd));
    PlayAppends(policy, acts + [Vet(client, cmd)], ReverseVetted(client, Stored));
    SubmitIsCreate(s.world, policy, cmd);
    if cmd.walletID in s.world.wallets {
      ReverseOnStored(s.world, cmd, target);
    } else {
      NoWalletNoRow(s.world, cmd);
    }
  }

  /** A row that is attempted right after it was listed. */
  lemma ListedAtOnce(policy: RetryPolicy, acts: seq<Act>, client: nat, id: Id, now: Time)
    requires var w := Play(policy, acts).world; id in w.txs && Due(w.txs[id], now)
    ensures Play(policy, acts + [List(client, id, now)] + [AttemptListed(client)]).world
            == After(Play(policy, acts).world, policy, Resolve(id, now, true))
  {
    hide Play, Attempt, Due;
    PlayAppends(policy, acts, List(client, id, now));
    PlayAppends(policy, acts + [List(client, id, now)], AttemptListed(client));
  }

  /** A row that is listed, checked and settled without anything in between. */
  lemma ClearedAtOnce(policy: RetryPolicy, acts: seq<Act>, client: nat, id: Id, now: Time, target: Id)
    requires var w := Play(policy, acts).world;
             id in w.txs && Due(w.txs[id], now) && Passes(w, w.txs[id].tx.ident, target)
    ensures Play(policy, acts + [List(client, id, now)] + [Clear(client)] + [SettleCleared(client, Stored)]).world
            == After(Play(policy, acts).world, policy, Resolve(id, now, true))
  {
    hide Play, After, Due, Passes, Perform, Kept;
    var listing := acts + [List(client, id, now)];
    PlayKeeps(policy, acts);
    PlayAppends(policy, acts, List(client, id, now));
    PlayAppends(policy, listing, Clear(client));
    PlayAppends(policy, listing + [Clear(client)], SettleCleared(client, Stored));
    ClearedInTurn(Play(policy, acts), policy, client, id, now, target);
  }

  lemma ClearedInTurn(s: System, policy: RetryPolicy, client: nat, id: Id, now: Time, target: Id)
    requires Kept(s) && id in s.world.txs && Due(s.world.txs[id], now)
    requires Passes(s.world, s.world.txs[id].tx.ident, target)
    ensures var listed := Perform(s, policy, List(client, id, now));
            var cleared := Perform(listed, policy, Clear(client));
            Perform(cleared, policy, SettleCleared(client, Stored)).world
            == After(s.world, policy, Resolve(id, now, true))
  {
    hide After, Due, Passes, SettleListed, Sound, Balanced, EventsKnown, Reads;
    ClearedIsStep(s.world, policy, id, now, target);
    var t := s.world.txs[id].tx;
    var listed := Perform(s, policy, List(client, id, now));
    assert listed == s.(listed := s.listed[client := (t, now)]);
    var cleared := Perform(listed, policy, Clear(client));
    assert cleared == listed.(cleared := listed.cleared[client := (t, now, target)]);
  }

  /** The wallet is there, the check finds its target, and the tail on the stored row is the attempt. */
  lemma ClearedIsStep(w: World, policy: RetryPolicy, id: Id, now: Time, target: Id)
    requires Sound(w) && id in w.txs && Due(w.txs[id], now) && Passes(w, w.txs[id].tx.ident, target)
    ensures var t := w.txs[id].tx;
            && t.ident.walletID in w.wallets && target in w.txs
            && FindExternal(w.txs, t.ident.providerID, t.ident.reference) == Some(target)
            && After(w, policy, Resolve(id, now, true))
               == match SettleListed(w, t, target, w.wallets[t.ident.walletID], now)
                  case Err(_) => w
                  case Ok(done) => done.0
  {
    hide UniqueKeys, RowSound, Reverse, SettleListed, Unreversed, ReferenceFault, Due;
    ReverseSettles(w, w.txs[id].tx, target, now);
  }
}
