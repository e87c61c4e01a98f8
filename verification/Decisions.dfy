/**
 * Which commands succeed and what is decided about them, stated over the stored tables alone: a definition of the
 * engine's rulings that does not follow its code, and the proof that they agree.
 */
module Decisions {
  import opened Prelude
  import opened Int64
  import opened MoneyDomain
  import opened WalletDomain
  import opened WagerDomain
  import opened Store
  import opened Engine
  import opened Runs
  import opened References
  import opened Balances
  import opened Agreement
  import opened Browsing
  import Ledger = LedgerDomain

  // ---- what a reversal needs ----

  /** The stored transaction a command refers to. */
  predicate Names(txs: map<Id, TxRow>, cmd: Command, id: Id) {
    id in txs && HasExternal(txs[id].tx, cmd.providerID, cmd.reference)
  }

  predicate KindAllows(kind: Kind, target: Kind) {
    if kind.Refund? then target.Bet? else target.Bet? || target.Win? || target.Refund?
  }

  predicate SameTerms(cmd: Command, t: Tx) {
    && t.ident.providerID == cmd.providerID && t.ident.playerID == cmd.playerID && t.ident.walletID == cmd.walletID
    && t.ident.roundID == cmd.roundID && t.ident.money == cmd.amount
  }

  /** A processed transaction of a kind the command may reverse, on the same terms. */
  predicate Suits(txs: map<Id, TxRow>, cmd: Command, id: Id) {
    && Names(txs, cmd, id) && KindAllows(cmd.kind, txs[id].tx.ident.kind) && txs[id].tx.status.Processed?
    && SameTerms(cmd, txs[id].tx)
  }

  predicate Mismatched(txs: map<Id, TxRow>, cmd: Command, id: Id) {
    && Names(txs, cmd, id)
    && (!KindAllows(cmd.kind, txs[id].tx.ident.kind)
        || (txs[id].tx.status.Processed? && !SameTerms(cmd, txs[id].tx)))
  }

  predicate NotYet(txs: map<Id, TxRow>, cmd: Command, id: Id) {
    Names(txs, cmd, id) && KindAllows(cmd.kind, txs[id].tx.ident.kind) && !txs[id].tx.status.Processed?
  }

  /** The wallet cannot give back what reversing `id` would take from it. */
  predicate Exceeds(w: World, cmd: Command, id: Id) {
    && Names(w.txs, cmd, id) && !w.txs[id].tx.ident.kind.Bet?
    && cmd.walletID in w.wallets && w.wallets[cmd.walletID].balance.minorUnits < cmd.amount.minorUnits
  }

  /** The ruling on a reversal whose reference is stored under `id`. */
  ghost predicate RuledOn(w: World, cmd: Command, id: Id, t: Tx) {
    && (t.failure == ReferenceMismatch <==> Mismatched(w.txs, cmd, id))
    && (t.failure == ReferenceNotProcessed <==> NotYet(w.txs, cmd, id))
    && (t.failure == DuplicateReversal <==> Suits(w.txs, cmd, id) && !Unreversed(w.txs, id))
    && (t.failure == ReversalExceedsBalance <==>
        Suits(w.txs, cmd, id) && Unreversed(w.txs, id) && Exceeds(w, cmd, id))
    && t.failure != InsufficientFunds && t.failure != FailureCode.ReferenceNotFound
    && t.status == (if t.failure == NoCode then Status.Processed else Rejected)
  }

  lemma FaultIsExact(p: Ident, cmd: Command, txs: map<Id, TxRow>, id: Id)
    requires p == IdentOf(cmd, p.id) && Names(txs, cmd, id)
    ensures var code := ReferenceFault(p, txs[id].tx);
            && (code == ReferenceMismatch <==> Mismatched(txs, cmd, id))
            && (code == ReferenceNotProcessed <==> NotYet(txs, cmd, id))
            && (code == NoCode <==> Suits(txs, cmd, id))
            && (code == NoCode || code == ReferenceMismatch || code == ReferenceNotProcessed)
  {
    hide CanonicalPayload;
  }

  /** What a settlement decides is whether the balance covers a debit. */
  lemma SettleRules(w: World, t: Tx, reference: Option<Id>, direction: Ledger.Direction, code: FailureCode, now: Time)
    requires t.failure == NoCode && code != NoCode
    requires Settle(w, t, reference, direction, code, now).Ok?
    ensures var t' := Settle(w, t, reference, direction, code, now).value.1;
            && t.ident.walletID in w.wallets
            && t'.failure == (if direction.Debit?
                                 && w.wallets[t.ident.walletID].balance.minorUnits < t.ident.money.minorUnits
                              then code else NoCode)
            && t'.status == (if t'.failure == NoCode then Status.Processed else Rejected)
  {
    hide Book, UpdateTx;
  }

  lemma RefusalRules(w: World, t: Tx, code: FailureCode, now: Time)
    requires Refuse(w, t, code, now).Ok?
    ensures Refuse(w, t, code, now).value.1.failure == code && Refuse(w, t, code, now).value.1.status.Rejected?
  {
  }

  lemma ReversalRules(w: World, cmd: Command, id: Id)
    requires Sound(w) && RequiresReference(cmd.kind) && Writable(w, IdentOf(cmd, w.next)) && Names(w.txs, cmd, id)
    requires Create(w, cmd).Ok?
    ensures RuledOn(w, cmd, id, Create(w, cmd).value.1)
  {
    hide Sound, Create, Settle, Refuse, Writable, CanonicalPayload, Unreversed, CountReversals, ReferenceFault,
         Mismatched, NotYet;
    var p := IdentOf(cmd, w.next);
    var w1 := w.(txs := w.txs[p.id := TxRow(FreshTx(p), 0, None)], next := w.next + 1);
    SoundLookup(w, cmd.providerID, cmd.reference, id);
    DecidingIsReversing(w, cmd);
    UnusedIdentifier(w, w.next);
    FaultIsExact(p, cmd, w.txs, id);
    NoReversals(w1.txs, id);
    SameReversals(w, w1, p, id);
    var ref := w.txs[id].tx;
    var code := ReferenceFault(p, ref);
    if code != NoCode {
      RefusalRules(w1, FreshTx(p), code, cmd.now);
    } else if !Unreversed(w.txs, id) {
      RefusalRules(w1, FreshTx(p), DuplicateReversal, cmd.now);
    } else {
      SettleRules(w1, FreshTx(p), Some(id), ReversalDirection(ref.ident.kind), ReversalExceedsBalance, cmd.now);
    }
  }

  // ---- the ruling on any command ----

  predicate BalanceCovers(w: World, cmd: Command) {
    cmd.walletID in w.wallets && w.wallets[cmd.walletID].balance.minorUnits >= cmd.amount.minorUnits
  }

  ghost predicate Ruled(w: World, cmd: Command, t: Tx) {
    match cmd.kind
    case Bet =>
      if BalanceCovers(w, cmd) then t.status.Processed? && t.failure == NoCode
      else t.status.Rejected? && t.failure == InsufficientFunds
    case Win => t.status.Processed? && t.failure == NoCode
    case Loss => t.status.Processed? && t.failure == NoCode
    case Opening => false
    case Other(_) => false
    case _ =>
      if cmd.reference == cmd.externalID then t.status.Rejected? && t.failure == ReferenceMismatch
      else if forall id :: id in w.txs ==> !Names(w.txs, cmd, id) then t.status.PendingReference? && t.failure == NoCode
      else forall id :: Names(w.txs, cmd, id) ==> RuledOn(w, cmd, id, t)
  }

  /**
   * Whatever is decided about a new command follows from the tables as they were: a bet is refused exactly when the
   * balance does not cover it; a reversal is parked exactly when nothing is stored under its reference, refused with
   * exactly the code its reference and the balance call for, and otherwise processed.
   */
  lemma RulingIsExact(w: World, cmd: Command)
    requires Sound(w) && Create(w, cmd).Ok?
    ensures cmd.walletID in w.wallets && Ruled(w, cmd, Create(w, cmd).value.1)
  {
    hide Sound, Create, Writable, RuledOn, CanonicalPayload, Names;
    var p := IdentOf(cmd, w.next);
    CreatedIsWritable(w, cmd);
    if RequiresReference(cmd.kind) {
      if cmd.reference == cmd.externalID {
        SelfReferenceIsRejected(w, cmd);
      } else if forall id :: id in w.txs ==> !Names(w.txs, cmd, id) {
        MissingParks(w, cmd);
      } else {
        forall id | Names(w.txs, cmd, id)
          ensures RuledOn(w, cmd, id, Create(w, cmd).value.1)
        {
          ReversalRules(w, cmd, id);
        }
      }
    } else {
      PlainRules(w, cmd);
    }
  }

  lemma CreatedIsWritable(w: World, cmd: Command)
    requires Sound(w) && Create(w, cmd).Ok?
    ensures Writable(w, IdentOf(cmd, w.next)) && cmd.walletID in w.wallets && IsExternal(cmd.kind)
  {
    hide Dispatch, RowSound, UniqueKeys, CanonicalPayload;
    InsertEffect(w, IdentOf(cmd, w.next));
    UnusedIdentifier(w, w.next);
  }

  lemma MissingParks(w: World, cmd: Command)
    requires Sound(w) && RequiresReference(cmd.kind) && Create(w, cmd).Ok? && cmd.reference != cmd.externalID
    requires forall id :: id in w.txs ==> !Names(w.txs, cmd, id)
    ensures var t := Create(w, cmd).value.1; t.status.PendingReference? && t.failure == NoCode
  {
    hide RowSound, UniqueKeys, Reverse, Settle, UpdateTx, CanonicalPayload;
    var p := IdentOf(cmd, w.next);
    InsertEffect(w, p);
    var w1 := InsertTx(w.(next := w.next + 1), FreshTx(p)).value;
    hide InsertTx;
    forall id | id in w1.txs
      ensures !HasExternal(w1.txs[id].tx, p.providerID, p.reference)
    {
      assert id != p.id ==> !Names(w.txs, cmd, id);
    }
  }

  lemma PlainRules(w: World, cmd: Command)
    requires Sound(w) && !RequiresReference(cmd.kind) && Create(w, cmd).Ok?
    ensures Ruled(w, cmd, Create(w, cmd).value.1)
  {
    hide RowSound, UniqueKeys, Settle, Reverse, UpdateTx, CanonicalPayload;
    var p := IdentOf(cmd, w.next);
    InsertEffect(w, p);
    var w1 := InsertTx(w.(next := w.next + 1), FreshTx(p)).value;
    hide InsertTx;
    if cmd.kind.Bet? {
      SettleRules(w1, FreshTx(p), None, Ledger.Debit, InsufficientFunds, cmd.now);
    } else if cmd.kind.Win? {
      SettleRules(w1, FreshTx(p), FindExternal(w1.txs, p.providerID, p.reference), Ledger.Credit, InsufficientFunds,
                  cmd.now);
    }
  }

  /** A win records what is stored under its reference, and may find itself there, since its row is written first. */
  lemma WinResolvesExactly(w: World, cmd: Command)
    requires Sound(w) && cmd.kind.Win? && Create(w, cmd).Ok?
    ensures Create(w, cmd).value.1.resolved ==
            if cmd.reference == cmd.externalID then Some(w.next)
            else FindExternal(w.txs, cmd.providerID, cmd.reference)
  {
    hide RowSound, Book, UpdateTx, Refuse, DebitOf, CanonicalPayload;
    var p := IdentOf(cmd, w.next);
    InsertEffect(w, p);
    var w1 := InsertTx(w.(next := w.next + 1), FreshTx(p)).value;
    hide InsertTx;
    NewRowIsFound(w, w1, p);
    hide UniqueKeys;
  }

  lemma NewRowIsFound(w: World, w1: World, p: Ident)
    requires Sound(w) && p.id == w.next && p.id !in w.txs && Writable(w, p)
    requires w1 == w.(txs := w.txs[p.id := TxRow(FreshTx(p), 0, None)], next := w.next + 1)
    ensures FindExternal(w1.txs, p.providerID, p.reference) ==
            if p.reference == p.externalID then Some(p.id) else FindExternal(w.txs, p.providerID, p.reference)
  {
    hide RowSound;
    assert w1.txs[p.id].tx == FreshTx(p);
    if p.reference == p.externalID {
      assert HasExternal(w1.txs[p.id].tx, p.providerID, p.reference);
      assert forall id :: id in w.txs ==> !SameExternal(w.txs[id].tx, FreshTx(p));
    } else if FindExternal(w.txs, p.providerID, p.reference).Some? {
      FoundWithNew(w, TxRow(FreshTx(p), 0, None), p.providerID, p.reference);
    } else {
      assert forall id :: id in w1.txs && id != p.id ==> w1.txs[id] == w.txs[id];
    }
  }

  // ---- which commands succeed ----

  /** The wallet can take the movement: one currency, a balance in range, and a version that still counts up. */
  predicate Movable(w: World, direction: Ledger.Direction, walletID: Id, amount: Money) {
    && walletID in w.wallets && amount.currency == w.wallets[walletID].balance.currency
    && (direction.Credit? ==> Fits(w.wallets[walletID].balance.minorUnits as int + amount.minorUnits))
    && ((direction.Debit? && w.wallets[walletID].balance.minorUnits < amount.minorUnits)
        || w.wallets[walletID].version < MAX)
  }

  /** Stored balances and versions, and the ledger's identifiers, are what runs leave behind. */
  ghost predicate Orderly(w: World) {
    && Sound(w) && Numbered(w)
    && (forall id :: id in w.wallets ==> w.wallets[id].balance.minorUnits >= 0 && w.wallets[id].version >= 1)
    && (forall i :: 0 <= i < |w.ledger| ==> w.ledger[i].transactionID in w.txs)
  }

  /** Booking a movement succeeds exactly when the version does not wrap. */
  lemma BookSucceedsExactly(w: World, p: Ident, row': WalletRow, m: Movement, direction: Ledger.Direction, now: Time)
    requires p.walletID in w.wallets && w.wallets[p.walletID].id == p.walletID && p.id in w.txs
    requires p.id != NIL && p.walletID != NIL && w.next != NIL && w.wallets[p.walletID].version >= 1
    requires MoveOf(w.wallets[p.walletID], direction, p.money, now) == Ok((row', m)) && m.after.minorUnits >= 0
    requires forall i :: 0 <= i < |w.ledger| ==> w.ledger[i].id != w.next && w.ledger[i].transactionID != p.id
    ensures var entry := Ledger.Entry(w.next, p.walletID, p.id, direction, p.money, m.before, m.after, now);
            Book(w, p, row', w.wallets[p.walletID].version, m, direction, now)
            == if w.wallets[p.walletID].version < MAX
               then Ok(w.(wallets := w.wallets[p.walletID := row'], next := w.next + 1, ledger := w.ledger + [entry]))
               else Err(ConstraintViolation)
  {
    hide Ledger.New, DebitOf, CreditOf;
    MoveEffect(w.wallets[p.walletID], direction, p.money, now);
    Ledger.NewIsExact(w.next, p.walletID, p.id, direction, p.money, m.before, m.after, now);
    WrapNearby(w.wallets[p.walletID].version + 1);
  }

  lemma SettleSucceedsExactly(w: World, t: Tx, reference: Option<Id>, direction: Ledger.Direction, code: FailureCode,
                              now: Time)
    requires t.ident.walletID in w.wallets && w.wallets[t.ident.walletID].id == t.ident.walletID
    requires w.wallets[t.ident.walletID].balance.minorUnits >= 0 && w.wallets[t.ident.walletID].version >= 1
    requires t.resolved.None? && t.ident.id in w.txs && t.ident.money.minorUnits > 0
    requires t.ident.id != NIL && t.ident.walletID != NIL && w.next != NIL
    requires reference.Some? ==> reference.value in w.txs
    requires forall i :: 0 <= i < |w.ledger| ==> w.ledger[i].id != w.next && w.ledger[i].transactionID != t.ident.id
    ensures Settle(w, t, reference, direction, code, now).Ok?
            <==> Movable(w, direction, t.ident.walletID, t.ident.money)
  {
    hide Book;
    var row := w.wallets[t.ident.walletID];
    if MoveOf(row, direction, t.ident.money, now).Ok? {
      var (row', m) := MoveOf(row, direction, t.ident.money, now).value;
      BookSucceedsExactly(w, t.ident, row', m, direction, now);
    }
  }

  /** What stops a movement that cannot be made: the currency, else a credit out of range, else the version. */
  function MovementFault(w: World, direction: Ledger.Direction, walletID: Id, amount: Money): Error
    requires walletID in w.wallets
  {
    if amount.currency != w.wallets[walletID].balance.currency then WalletCurrencyMismatch
    else if direction.Credit? && w.wallets[walletID].balance.minorUnits as int + amount.minorUnits > MAX then Overflow
    else ConstraintViolation
  }

  lemma SettleErrsExactly(w: World, t: Tx, reference: Option<Id>, direction: Ledger.Direction, code: FailureCode,
                          now: Time)
    requires t.ident.walletID in w.wallets && w.wallets[t.ident.walletID].id == t.ident.walletID
    requires w.wallets[t.ident.walletID].balance.minorUnits >= 0 && w.wallets[t.ident.walletID].version >= 1
    requires t.resolved.None? && t.ident.id in w.txs && t.ident.money.minorUnits > 0
    requires t.ident.id != NIL && t.ident.walletID != NIL && w.next != NIL
    requires reference.Some? ==> reference.value in w.txs
    requires forall i :: 0 <= i < |w.ledger| ==> w.ledger[i].id != w.next && w.ledger[i].transactionID != t.ident.id
    requires Settle(w, t, reference, direction, code, now).Err?
    ensures Settle(w, t, reference, direction, code, now)
            == Err(MovementFault(w, direction, t.ident.walletID, t.ident.money))
  {
    hide Book;
    var row := w.wallets[t.ident.walletID];
    if MoveOf(row, direction, t.ident.money, now).Ok? {
      var (row', m) := MoveOf(row, direction, t.ident.money, now).value;
      BookSucceedsExactly(w, t.ident, row', m, direction, now);
    }
  }

  /** The command says all that its kind needs, and nothing its kind must not say. */
  predicate FullySpecified(cmd: Command) {
    && (cmd.kind.Bet? || cmd.kind.Win? || cmd.kind.Loss? || cmd.kind.Refund? || cmd.kind.Rollback?)
    && cmd.walletID != NIL && cmd.playerID != NIL
    && cmd.providerID != "" && cmd.externalID != "" && cmd.key != "" && cmd.roundID != "" && cmd.gameID != ""
    && (cmd.kind.Refund? || cmd.kind.Rollback? ==> cmd.reference != "")
    && (cmd.kind.Bet? || cmd.kind.Loss? ==> cmd.reference == "")
    && (if cmd.kind.Loss? then cmd.amount.minorUnits == 0 else cmd.amount.minorUnits > 0)
  }

  lemma SpecifiedIsFaultless(cmd: Command, id: Id)
    requires id != NIL
    ensures ExternalFault(IdentOf(cmd, id)) == None <==> FullySpecified(cmd)
  {
    hide CanonicalPayload;
    FaultsAreExact(IdentOf(cmd, id));
  }

  /** No stored transaction has the command's key or external identifier. */
  ghost predicate Novel(w: World, cmd: Command) {
    forall id :: id in w.txs ==> !HasExternal(w.txs[id].tx, cmd.providerID, cmd.externalID)
                                 && !HasKey(w.txs[id].tx, cmd.providerID, cmd.key)
  }

  /** The wallet can take what the command calls for, if it calls for a movement at all. */
  ghost predicate Takes(w: World, cmd: Command) {
    match cmd.kind
    case Bet => Movable(w, Ledger.Debit, cmd.walletID, cmd.amount)
    case Win => Movable(w, Ledger.Credit, cmd.walletID, cmd.amount)
    case Loss => true
    case Opening => false
    case Other(_) => false
    case _ =>
      forall id :: id in w.txs && Suits(w.txs, cmd, id) && Unreversed(w.txs, id) ==>
                     Movable(w, ReversalDirection(w.txs[id].tx.ident.kind), cmd.walletID, cmd.amount)
  }

  lemma InsertSucceedsExactly(w: World, cmd: Command)
    requires Sound(w) && ExternalFault(IdentOf(cmd, w.next)) == None
    ensures InsertTx(w.(next := w.next + 1), FreshTx(IdentOf(cmd, w.next))).Ok?
            <==> Novel(w, cmd) && cmd.walletID in w.wallets
    ensures Novel(w, cmd) && cmd.walletID in w.wallets ==> Writable(w, IdentOf(cmd, w.next))
  {
    hide UniqueKeys, RowSound, CanonicalPayload;
  }

  /** The tables with the new row are as orderly for a settlement as the tables before. */
  lemma SettleOnNew(w: World, p: Ident, w1: World, reference: Option<Id>, direction: Ledger.Direction,
                    code: FailureCode, now: Time)
    requires Orderly(w) && p.id == w.next && ExternalFault(p) == None && p.walletID in w.wallets
    requires p.money.minorUnits > 0 && (reference.Some? ==> reference.value in w1.txs)
    requires w1 == w.(txs := w.txs[p.id := TxRow(FreshTx(p), 0, None)], next := w.next + 1)
    ensures Settle(w1, FreshTx(p), reference, direction, code, now).Ok? <==> Movable(w, direction, p.walletID, p.money)
  {
    hide Settle, UniqueKeys, RowSound;
    SettleSucceedsExactly(w1, FreshTx(p), reference, direction, code, now);
  }

  /** A reversal with a stored reference fails only when it should move a wallet that cannot take the movement. */
  lemma ReversalSucceedsExactly(w: World, cmd: Command, id: Id)
    requires Orderly(w) && RequiresReference(cmd.kind) && Novel(w, cmd) && cmd.walletID in w.wallets
    requires ExternalFault(IdentOf(cmd, w.next)) == None && Names(w.txs, cmd, id)
    ensures Create(w, cmd).Ok?
            <==> (Suits(w.txs, cmd, id) && Unreversed(w.txs, id) ==>
                    Movable(w, ReversalDirection(w.txs[id].tx.ident.kind), cmd.walletID, cmd.amount))
  {
    hide Sound, Create, Settle, Refuse, Writable, CanonicalPayload, Novel, ExternalFault, Movable, Numbered;
    var p := IdentOf(cmd, w.next);
    var w1 := w.(txs := w.txs[p.id := TxRow(FreshTx(p), 0, None)], next := w.next + 1);
    InsertSucceedsExactly(w, cmd);
    SoundLookup(w, cmd.providerID, cmd.reference, id);
    DecidingIsReversing(w, cmd);
    UnusedIdentifier(w, w.next);
    FaultIsExact(p, cmd, w.txs, id);
    NoReversals(w1.txs, id);
    SameReversals(w, w1, p, id);
    hide Unreversed, CountReversals, ReferenceFault, Mismatched, NotYet;
    var ref := w.txs[id].tx;
    var code := ReferenceFault(p, ref);
    if code != NoCode {
      RefuseEffect(w1, FreshTx(p), code, cmd.now);
    } else if !Unreversed(w.txs, id) {
      RefuseEffect(w1, FreshTx(p), DuplicateReversal, cmd.now);
    } else {
      PositiveAmount(p);
      SettleOnNew(w, p, w1, Some(id), ReversalDirection(ref.ident.kind), ReversalExceedsBalance, cmd.now);
    }
  }

  lemma PositiveAmount(p: Ident)
    requires ExternalFault(p) == None && !p.kind.Loss?
    ensures p.money.minorUnits > 0
  {
  }

  /** Without a stored reference a reversal always succeeds: it is parked, or refused for naming itself. */
  lemma UnnamedSucceeds(w: World, cmd: Command)
    requires Sound(w) && RequiresReference(cmd.kind) && Novel(w, cmd) && cmd.walletID in w.wallets
    requires ExternalFault(IdentOf(cmd, w.next)) == None
    requires forall id :: id in w.txs ==> !Names(w.txs, cmd, id)
    ensures Create(w, cmd).Ok?
  {
    hide RowSound, UniqueKeys, Settle, Refuse, UpdateTx, CanonicalPayload, CountReversals;
    var p := IdentOf(cmd, w.next);
    InsertSucceedsExactly(w, cmd);
    InsertEffect(w, p);
    var w1 := InsertTx(w.(next := w.next + 1), FreshTx(p)).value;
    hide InsertTx;
    assert p.reference == p.externalID ==> HasExternal(w1.txs[p.id].tx, p.providerID, p.reference);
    match FindExternal(w1.txs, p.providerID, p.reference)
    case None =>
      assert p.reference != p.externalID;
      ParkEffect(w1, FreshTx(p), cmd.now);
    case Some(target) =>
      assert target != p.id ==> Names(w.txs, cmd, target);
      RefuseEffect(w1, FreshTx(p), FailureCode.ReferenceMismatch, cmd.now);
  }

  lemma PlainSucceedsExactly(w: World, cmd: Command)
    requires Orderly(w) && !RequiresReference(cmd.kind) && Novel(w, cmd) && cmd.walletID in w.wallets
    requires ExternalFault(IdentOf(cmd, w.next)) == None
    ensures Create(w, cmd).Ok? <==> Takes(w, cmd)
  {
    hide RowSound, UniqueKeys, Settle, Reverse, Observe, CanonicalPayload, Movable, Numbered;
    var p := IdentOf(cmd, w.next);
    InsertSucceedsExactly(w, cmd);
    InsertEffect(w, p);
    var w1 := InsertTx(w.(next := w.next + 1), FreshTx(p)).value;
    hide InsertTx;
    match cmd.kind
    case Bet => SettleOnNew(w, p, w1, None, Ledger.Debit, InsufficientFunds, cmd.now);
    case Win =>
      SettleOnNew(w, p, w1, FindExternal(w1.txs, p.providerID, p.reference), Ledger.Credit, InsufficientFunds, cmd.now);
    case Loss => ObserveSucceeds(w1, FreshTx(p), cmd.now);
    case _ =>
  }

  lemma ObserveSucceeds(w: World, t: Tx, now: Time)
    requires t.ident.walletID in w.wallets && t.ident.id in w.txs && w.txs[t.ident.id].tx.ident == t.ident
    requires t.resolved.None?
    ensures Observe(w, t, now).Ok?
  {
    FinishEffect(w, t, w.wallets[t.ident.walletID].balance, now);
  }

  /** A command is created exactly when it is valid and novel, its wallet exists, and the wallet can take it. */
  lemma CreateSucceedsExactly(w: World, cmd: Command)
    requires Orderly(w)
    ensures Create(w, cmd).Ok?
            <==> FullySpecified(cmd) && Novel(w, cmd) && cmd.walletID in w.wallets && Takes(w, cmd)
  {
    SpecifiedIsFaultless(cmd, w.next);
    hide Sound, Numbered, Dispatch, InsertTx, Novel, Movable, Names, Unreversed, CanonicalPayload, ExternalFault,
         FullySpecified;
    if ExternalFault(IdentOf(cmd, w.next)) == None {
      InsertSucceedsExactly(w, cmd);
      if Novel(w, cmd) && cmd.walletID in w.wallets {
        hide Create;
        if !RequiresReference(cmd.kind) {
          PlainSucceedsExactly(w, cmd);
        } else if forall id :: id in w.txs ==> !Names(w.txs, cmd, id) {
          UnnamedSucceeds(w, cmd);
        } else {
          var id :| Names(w.txs, cmd, id);
          OneName(w, cmd, id);
          ReversalSucceedsExactly(w, cmd, id);
        }
      }
    }
  }

  /** Which way a new command is to move its wallet, if it comes to that. */
  ghost function Wanted(w: World, cmd: Command): Ledger.Direction {
    match cmd.kind
    case Bet => Ledger.Debit
    case Win => Ledger.Credit
    case _ =>
      var named := FindExternal(w.txs, cmd.providerID, cmd.reference);
      if named.Some? && w.txs[named.value].tx.ident.kind.Bet? then Ledger.Credit else Ledger.Debit
  }

  lemma SettleOnNewErrs(w: World, p: Ident, w1: World, reference: Option<Id>, direction: Ledger.Direction,
                        code: FailureCode, now: Time)
    requires Orderly(w) && p.id == w.next && ExternalFault(p) == None && p.walletID in w.wallets
    requires p.money.minorUnits > 0 && (reference.Some? ==> reference.value in w1.txs)
    requires w1 == w.(txs := w.txs[p.id := TxRow(FreshTx(p), 0, None)], next := w.next + 1)
    ensures var r := Settle(w1, FreshTx(p), reference, direction, code, now);
            r.Err? ==> r == Err(MovementFault(w, direction, p.walletID, p.money))
  {
    hide Settle, UniqueKeys, RowSound;
    if Settle(w1, FreshTx(p), reference, direction, code, now).Err? {
      SettleErrsExactly(w1, FreshTx(p), reference, direction, code, now);
    }
  }

  lemma ReversalErrs(w: World, cmd: Command, id: Id)
    requires Orderly(w) && RequiresReference(cmd.kind) && Novel(w, cmd) && cmd.walletID in w.wallets
    requires ExternalFault(IdentOf(cmd, w.next)) == None && Names(w.txs, cmd, id) && Create(w, cmd).Err?
    ensures Create(w, cmd) == Err(MovementFault(w, Wanted(w, cmd), cmd.walletID, cmd.amount))
  {
    hide Sound, Create, Settle, Refuse, Writable, CanonicalPayload, Novel, ExternalFault, Numbered, Unreversed,
         CountReversals, ReferenceFault, MovementFault;
    var p := IdentOf(cmd, w.next);
    var w1 := w.(txs := w.txs[p.id := TxRow(FreshTx(p), 0, None)], next := w.next + 1);
    InsertSucceedsExactly(w, cmd);
    SoundLookup(w, cmd.providerID, cmd.reference, id);
    DecidingIsReversing(w, cmd);
    UnusedIdentifier(w, w.next);
    NoReversals(w1.txs, id);
    var ref := w.txs[id].tx;
    var code := ReferenceFault(p, ref);
    if code != NoCode {
      RefuseEffect(w1, FreshTx(p), code, cmd.now);
    } else if !Unreversed(w1.txs, id) {
      RefuseEffect(w1, FreshTx(p), DuplicateReversal, cmd.now);
    } else {
      PositiveAmount(p);
      SettleOnNewErrs(w, p, w1, Some(id), ReversalDirection(ref.ident.kind), ReversalExceedsBalance, cmd.now);
    }
  }

  lemma PlainErrs(w: World, cmd: Command)
    requires Orderly(w) && !RequiresReference(cmd.kind) && Novel(w, cmd) && cmd.walletID in w.wallets
    requires ExternalFault(IdentOf(cmd, w.next)) == None && Create(w, cmd).Err?
    ensures Create(w, cmd) == Err(MovementFault(w, Wanted(w, cmd), cmd.walletID, cmd.amount))
  {
    hide RowSound, UniqueKeys, Settle, Reverse, Observe, CanonicalPayload, Numbered, MovementFault;
    var p := IdentOf(cmd, w.next);
    InsertSucceedsExactly(w, cmd);
    InsertEffect(w, p);
    var w1 := InsertTx(w.(next := w.next + 1), FreshTx(p)).value;
    hide InsertTx;
    match cmd.kind
    case Bet => SettleOnNewErrs(w, p, w1, None, Ledger.Debit, InsufficientFunds, cmd.now);
    case Win =>
      var reference := FindExternal(w1.txs, p.providerID, p.reference);
      SettleOnNewErrs(w, p, w1, reference, Ledger.Credit, InsufficientFunds, cmd.now);
    case Loss => ObserveSucceeds(w1, FreshTx(p), cmd.now);
    case _ =>
  }

  lemma UnplacedErrs(w: World, cmd: Command)
    requires Sound(w) && Novel(w, cmd) && ExternalFault(IdentOf(cmd, w.next)) == None && cmd.walletID !in w.wallets
    ensures Create(w, cmd) == Err(ConstraintViolation)
  {
    hide RowSound, UniqueKeys, Dispatch, CanonicalPayload;
    UnusedIdentifier(w, w.next);
  }

  /** Why a new command errs: the command itself, its wallet, or the movement that is called for. */
  lemma CreateErrsExactly(w: World, cmd: Command)
    requires Orderly(w) && Novel(w, cmd) && Create(w, cmd).Err?
    ensures Create(w, cmd).error
            == if cmd.kind.Opening? || cmd.kind.Other? then InvalidKindForOperation
               else if !FullySpecified(cmd) then InvalidTransaction
               else if cmd.walletID !in w.wallets then ConstraintViolation
               else MovementFault(w, Wanted(w, cmd), cmd.walletID, cmd.amount)
  {
    FaultsAreExact(IdentOf(cmd, w.next));
    SpecifiedIsFaultless(cmd, w.next);
    hide Sound, Numbered, Dispatch, InsertTx, Novel, Names, Unreversed, CanonicalPayload, ExternalFault, FullySpecified,
         MovementFault, Wanted, Submittable;
    if ExternalFault(IdentOf(cmd, w.next)) == None {
      hide Create;
      if cmd.walletID !in w.wallets {
        UnplacedErrs(w, cmd);
      } else if !RequiresReference(cmd.kind) {
        PlainErrs(w, cmd);
      } else if forall id :: id in w.txs ==> !Names(w.txs, cmd, id) {
        UnnamedSucceeds(w, cmd);
      } else {
        var id :| id in w.txs && Names(w.txs, cmd, id);
        ReversalErrs(w, cmd, id);
      }
    }
  }

  lemma OneName(w: World, cmd: Command, id: Id)
    requires Sound(w) && Names(w.txs, cmd, id)
    ensures forall j :: Names(w.txs, cmd, j) ==> j == id
  {
    hide Sound;
    forall j | Names(w.txs, cmd, j)
      ensures j == id
    {
      SoundLookup(w, cmd.providerID, cmd.reference, id);
      SoundLookup(w, cmd.providerID, cmd.reference, j);
    }
  }

  lemma RunIsOrderly(policy: RetryPolicy, steps: seq<Step>)
    ensures Orderly(Run(policy, steps))
  {
    hide Run, Sound, Matched, ReversedOnce, EntriesOf, EventsOf, EventsKnown, Numbered;
    var w := Run(policy, steps);
    RunIsSound(policy, steps);
    RunIsBalanced(policy, steps);
    RunIsConsistent(policy, steps);
    RunIsNumbered(policy, steps);
    forall id | id in w.wallets
      ensures w.wallets[id].balance.minorUnits >= 0 && w.wallets[id].version >= 1
    {
      HistoryExplains(w.txs, EntriesOf(w.ledger, id), EventsOf(w.outbox, id), w.wallets[id]);
    }
    forall i | 0 <= i < |w.ledger|
      ensures w.ledger[i].transactionID in w.txs
    {
      assert Books(w.txs, w.ledger[i]);
    }
  }

  /**
   * After any run, a new command succeeds exactly when it is fully specified, its wallet exists, and, if a movement is
   * called for, the wallet has the command's currency, a credit does not overflow and the version can still rise;
   * and then the ruling is the one the tables call for. Otherwise the error tells the first of these that is missing.
   */
  lemma CommandsSucceedExactly(policy: RetryPolicy, steps: seq<Step>, cmd: Command)
    requires Novel(Run(policy, steps), cmd)
    ensures var w := Run(policy, steps);
            && (Process(w, cmd).Ok? <==> FullySpecified(cmd) && cmd.walletID in w.wallets && Takes(w, cmd))
            && (Process(w, cmd).Ok? ==>
                  exists t :: Ruled(w, cmd, t) && Process(w, cmd).value.1 == ResultOf(t, false))
            && (Process(w, cmd).Err? ==>
                  Process(w, cmd).error
                  == if cmd.kind.Opening? || cmd.kind.Other? then InvalidKindForOperation
                     else if !FullySpecified(cmd) then InvalidTransaction
                     else if cmd.walletID !in w.wallets then ConstraintViolation
                     else MovementFault(w, Wanted(w, cmd), cmd.walletID, cmd.amount))
  {
    hide Run, Create, Takes, Ruled, FullySpecified, CanonicalPayload, Sound, MovementFault, Wanted;
    var w := Run(policy, steps);
    RunIsOrderly(policy, steps);
    CreateSucceedsExactly(w, cmd);
    if Create(w, cmd).Ok? {
      RulingIsExact(w, cmd);
    } else {
      CreateErrsExactly(w, cmd);
    }
  }

  /** The player already has a wallet in this currency. */
  ghost predicate HasWallet(w: World, playerID: Id, currency: string) {
    exists id :: id in w.wallets && w.wallets[id].playerID == playerID && w.wallets[id].balance.currency == currency
  }

  lemma OpeningEntrySucceeds(w: World, walletID: Id, openingID: Id, cmd: OpenCommand)
    requires walletID in w.wallets && walletID != NIL && openingID in w.txs && openingID != NIL && w.next != NIL
    requires cmd.initialBalance.minorUnits > 0
    requires forall i :: 0 <= i < |w.ledger| ==> w.ledger[i].id != w.next && w.ledger[i].transactionID != openingID
    ensures OpeningEntry(w, walletID, openingID, cmd).Ok?
  {
    var amount := cmd.initialBalance;
    Ledger.NewIsExact(w.next, walletID, openingID, Ledger.Credit, amount, Money(0, amount.currency), amount, cmd.now);
    hide Ledger.New;
  }

  /** The transaction of an opening: the player's, in the new wallet, processed from the start. */
  predicate OpeningStored(row: TxRow, id: Id, walletID: Id, cmd: OpenCommand) {
    var p, t := row.tx.ident, row.tx;
    && p.id == id && p.kind.Opening? && p.walletID == walletID && p.playerID == cmd.playerID
    && p.money == cmd.initialBalance && p.createdAt == cmd.now
    && p.providerID == p.externalID == p.key == p.roundID == p.gameID == p.reference == "" && p.hash.None?
    && t.status.Processed? && t.failure == NoCode && t.resolved.None? && t.resulting == Some(cmd.initialBalance)
    && t.updatedAt == cmd.now && row.attempts == 0 && row.retryAt.None?
  }

  predicate OpeningEntered(e: Ledger.Entry, id: Id, walletID: Id, cmd: OpenCommand) {
    && e.walletID == walletID && e.transactionID == id && e.direction.Credit? && e.money == cmd.initialBalance
    && e.before == Money(0, cmd.initialBalance.currency) && e.after == cmd.initialBalance && e.createdAt == cmd.now
  }

  /** Due from the start and not published yet. */
  predicate Posted(rec: OutboxRecord, event: Event, now: Time) {
    && rec.event == event && rec.occurredAt == now && rec.nextAttempt == now && rec.attempts == 0
    && rec.publishedAt.None?
  }

  /** One row, one entry and two events record the first balance. */
  predicate CreditsOpening(w: World, w': World, cmd: OpenCommand, walletID: Id, id: Id) {
    var amount, zero, m, n := cmd.initialBalance, Money(0, cmd.initialBalance.currency), |w.ledger|, |w.outbox|;
    && id !in w.txs && w'.txs.Keys == w.txs.Keys + {id} && (forall j :: j in w.txs ==> w'.txs[j] == w.txs[j])
    && OpeningStored(w'.txs[id], id, walletID, cmd)
    && |w'.ledger| == m + 1 && w'.ledger[..m] == w.ledger && OpeningEntered(w'.ledger[m], id, walletID, cmd)
    && |w'.outbox| == n + 2 && w'.outbox[..n] == w.outbox
    && Posted(w'.outbox[n], TransactionProcessed(id, "", "", walletID, cmd.playerID, Opening, amount, Some(amount),
                                                 cmd.now), cmd.now)
    && Posted(w'.outbox[n + 1], BalanceChanged(walletID, id, Ledger.Credit, amount, zero, amount, 1), cmd.now)
  }

  /** A new wallet, as ordered and as reported, and the credit of its first balance unless that is zero. */
  ghost predicate Opens(w: World, w': World, cmd: OpenCommand, r: OpenResult) {
    && r.walletID !in w.wallets && r.balance == cmd.initialBalance && r.version == 1 && w'.inbox == w.inbox
    && w'.wallets
       == w.wallets[r.walletID := WalletRow(r.walletID, cmd.playerID, cmd.initialBalance, 1, cmd.now, cmd.now)]
    && if cmd.initialBalance.minorUnits == 0 then w'.txs == w.txs && w'.ledger == w.ledger && w'.outbox == w.outbox
       else exists id :: CreditsOpening(w, w', cmd, r.walletID, id)
  }

  /**
   * After any run, opening a wallet fails only for a nil player or a negative balance, which make an invalid wallet,
   * or because the player has a wallet in that currency; it adds one wallet, for that player and with that balance,
   * credits the balance to it under the player's name, and leaves everything else alone.
   */
  lemma OpeningSucceedsExactly(policy: RetryPolicy, steps: seq<Step>, cmd: OpenCommand)
    ensures var w := Run(policy, steps);
            match Open(w, cmd)
            case Ok(done) =>
              && cmd.playerID != NIL && cmd.initialBalance.minorUnits >= 0
              && !HasWallet(w, cmd.playerID, cmd.initialBalance.currency) && Opens(w, done.0, cmd, done.1)
            case Err(e) =>
              if cmd.playerID == NIL || cmd.initialBalance.minorUnits < 0 then e == InvalidWallet
              else HasWallet(w, cmd.playerID, cmd.initialBalance.currency) && e == Conflict
  {
    hide Run, Open, Opens, Orderly, HasWallet;
    RunIsOrderly(policy, steps);
    OpenSucceedsExactly(Run(policy, steps), cmd);
    if Open(Run(policy, steps), cmd).Ok? {
      OpenIsFaithful(Run(policy, steps), cmd);
    }
  }

  lemma OpenIsFaithful(w: World, cmd: OpenCommand)
    requires Orderly(w) && Open(w, cmd).Ok?
    ensures Opens(w, Open(w, cmd).value.0, cmd, Open(w, cmd).value.1)
  {
    hide UniqueKeys, RowSound, Ledger.New, Numbered, CreditOpening, CreditsOpening;
    var row := WalletRow(w.next, cmd.playerID, cmd.initialBalance, 1, cmd.now, cmd.now);
    InsertWalletEffect(w, row);
    hide InsertWallet;
    if cmd.initialBalance.minorUnits > 0 {
      CreditIsFaithful(w, w.(next := w.next + 1, wallets := w.wallets[row.id := row]), row.id, cmd);
    }
  }

  lemma CreditIsFaithful(w: World, w1: World, walletID: Id, cmd: OpenCommand)
    requires Sound(w) && CreditOpening(w1, walletID, cmd).Ok?
    requires w1 == w.(next := w.next + 1, wallets := w1.wallets)
    ensures var w' := CreditOpening(w1, walletID, cmd).value;
            CreditsOpening(w, w', cmd, walletID, w1.next) && w'.inbox == w.inbox && w'.wallets == w1.wallets
  {
    var amount := cmd.initialBalance;
    var t := OpeningTx(w1.next, walletID, cmd.playerID, amount, cmd.now);
    var zero := Money(0, amount.currency);
    var e := Ledger.Entry(w1.next + 1, walletID, w1.next, Ledger.Credit, amount, zero, amount, cmd.now);
    CreditBooks(w1, walletID, cmd, t, e);
    var w2 := w1.(next := w1.next + 2, txs := w1.txs[w1.next := TxRow(t, 0, None)], ledger := w1.ledger + [e]);
    OpeningPosts(w2, t, cmd);
    UnusedIdentifier(w, w1.next);
    hide CreditOpening, OpeningEvents, Sound;
    assert w2.ledger[..|w.ledger|] == w.ledger;
  }

  lemma OpeningPosts(w: World, t: Tx, cmd: OpenCommand)
    requires t == OpeningTx(t.ident.id, t.ident.walletID, cmd.playerID, cmd.initialBalance, cmd.now)
    ensures var w', n, amount := OpeningEvents(w, t, cmd), |w.outbox|, cmd.initialBalance;
            var id, walletID, zero := t.ident.id, t.ident.walletID, Money(0, amount.currency);
            && w' == w.(outbox := w'.outbox, next := w'.next) && |w'.outbox| == n + 2 && w'.outbox[..n] == w.outbox
            && Posted(w'.outbox[n], TransactionProcessed(id, "", "", walletID, cmd.playerID, Opening, amount,
                                                         Some(amount), cmd.now), cmd.now)
            && Posted(w'.outbox[n + 1], BalanceChanged(walletID, id, Ledger.Credit, amount, zero, amount, 1), cmd.now)
  {
  }

  lemma OpenSucceedsExactly(w: World, cmd: OpenCommand)
    requires Orderly(w)
    ensures Open(w, cmd).Ok? <==> cmd.playerID != NIL && cmd.initialBalance.minorUnits >= 0
                                  && !HasWallet(w, cmd.playerID, cmd.initialBalance.currency)
    ensures Open(w, cmd).Err? ==>
              Open(w, cmd).error
              == if cmd.playerID == NIL || cmd.initialBalance.minorUnits < 0 then InvalidWallet else Conflict
  {
    hide UniqueKeys, RowSound, OpeningEntry, OpeningEvents;
    var row := WalletRow(w.next, cmd.playerID, cmd.initialBalance, 1, cmd.now, cmd.now);
    var write := InsertWallet(w.(next := w.next + 1), row);
    if write.Ok? && cmd.initialBalance.minorUnits > 0 && cmd.playerID != NIL {
      CreditSucceeds(w, write.value, row, cmd);
    }
  }

  lemma CreditSucceeds(w: World, w1: World, row: WalletRow, cmd: OpenCommand)
    requires Orderly(w) && row.id == w.next && cmd.initialBalance.minorUnits > 0
    requires w1 == w.(next := w.next + 1, wallets := w.wallets[row.id := row])
    ensures CreditOpening(w1, row.id, cmd).Ok?
  {
    hide UniqueKeys, RowSound, OpeningEntry, OpeningEvents;
    var t := OpeningTx(w1.next, row.id, cmd.playerID, cmd.initialBalance, cmd.now);
    var w2 := InsertTx(w1.(next := w1.next + 1), t).value;
    hide InsertTx;
    OpeningEntrySucceeds(w2, row.id, t.ident.id, cmd);
  }
}
