/**
 * A reversal is counted before its wallet is locked, so at-most-once reversal is a property of serial runs only: two
 * clients that vet the same bet before either commits both refund it.
 */
module Race {
  import opened Prelude
  import opened Int64
  import opened MoneyDomain
  import opened WalletDomain
  import opened WagerDomain
  import opened Store
  import opened Engine
  import opened Runs
  import opened References
  import opened Balances
  import opened Decisions
  import opened Agreement
  import opened StatusSafety
  import opened Interleaving
  import opened Payback
  import opened Scenarios
  import Ledger = LedgerDomain

  function BetRow(): TxRow {
    Landed(Bet, "bet", "", 6, None, 900)
  }

  lemma BothVet(w: World)
    requires At(w, 10, 900, 2, map[2 := OpeningRow(), 6 := BetRow()])
    ensures FindExternal(w.txs, "studio", "bet") == Some(6)
    ensures Vets(w, REFUND, 6) && Vets(w, ROLLBACK, 6)
  {
    assert HasExternal(w.txs[6].tx, "studio", "bet");
  }

  /** A reversal of the bet commits, whether or not another one has. */
  lemma ReversalLands(w: World, kind: Kind, external: string, balance: int64, version: int64)
    requires At(w, w.next, balance, version, w.txs) && w.next > 6 && w.next !in w.txs && Unused(w.txs, external)
    requires 6 in w.txs && w.txs[6] == BetRow() && RequiresReference(kind) && external != ""
    requires 1 <= version < 1000 && 0 <= balance < 9000
    ensures var r := ReverseOn(w, Request(kind, external, "bet"), 6, RowAt(balance, version));
            && r.Ok?
            && At(r.value.0, w.next + 4, balance + 100, version + 1,
                  w.txs[w.next := Landed(kind, external, "bet", w.next, Some(6), balance + 100)])
  {
    hide Settle, SettleOn, InsertTx, At, Unused, CanonicalPayload, ExternalFault, RowAt;
    Lands(w, kind, external, "bet", Some(6), ReversalExceedsBalance, Ledger.Credit, balance, balance + 100, version);
    WellFormedRequest(kind, external, "bet", w.next);
    var p := IdentOf(Request(kind, external, "bet"), w.next);
    var w1 := w.(txs := w.txs[p.id := TxRow(FreshTx(p), 0, None)], next := w.next + 1);
    SettleIsOnStored(w1, FreshTx(p), Some(6), Ledger.Credit, ReversalExceedsBalance, 0);
    WalletIs(w, w.next, balance, version, w.txs);
  }

  const RACE: seq<Act> := [Locked(OPENING), Locked(Submit(BET, true)), Vet(1, REFUND), Vet(2, ROLLBACK),
                           ReverseVetted(1, Stored), ReverseVetted(2, Stored)]

  lemma PlayNext(policy: RetryPolicy, acts: seq<Act>, k: nat)
    requires k < |acts|
    ensures Play(policy, acts[..k + 1]) == Perform(Play(policy, acts[..k]), policy, acts[k])
  {
    hide Perform;
    assert acts[..k + 1][..k] == acts[..k];
  }

  lemma RaceWorlds(policy: RetryPolicy)
    ensures Play(policy, RACE[..2]).world == After(After(EMPTY, policy, OPENING), policy, Submit(BET, true))
    ensures Play(policy, RACE[..2]).seen == map[] && Play(policy, RACE[..2]).vetted == map[]
  {
    hide Play, After;
    PlayNext(policy, RACE, 0);
    PlayNext(policy, RACE, 1);
    StartsEmpty(policy);
    assert RACE[..0] == [];
  }

  lemma StartsEmpty(policy: RetryPolicy)
    ensures Play(policy, []) == System(EMPTY, map[], map[], map[], map[])
  {
  }

  lemma FirstBet(w: World, policy: RetryPolicy)
    requires Sound(w) && At(w, 6, 1000, 1, map[2 := OpeningRow()])
    ensures At(After(w, policy, Submit(BET, true)), 10, 900, 2, map[2 := OpeningRow(), 6 := BetRow()])
  {
    hide Sound, After, CanonicalPayload;
    AfterBet(w, policy, "bet", 1000, 1);
  }

  lemma BetIsPlaced(policy: RetryPolicy) returns (s: System)
    ensures s == Play(policy, RACE[..2])
    ensures At(s.world, 10, 900, 2, map[2 := OpeningRow(), 6 := BetRow()]) && s.vetted == map[]
  {
    hide Play, After, At, Sound;
    s := Play(policy, RACE[..2]);
    RaceWorlds(policy);
    AfterOpening(policy);
    OpenedIsSound(policy);
    FirstBet(After(EMPTY, policy, OPENING), policy);
  }

  lemma BothHaveVetted(policy: RetryPolicy) returns (s: System)
    ensures s == Play(policy, RACE[..4]) && At(s.world, 10, 900, 2, map[2 := OpeningRow(), 6 := BetRow()])
    ensures s.vetted == map[1 := (REFUND, 6), 2 := (ROLLBACK, 6)]
  {
    s := BetIsPlaced(policy);
    hide Play, At, Vets;
    BothVet(s.world);
    PlayNext(policy, RACE, 2);
    PlayNext(policy, RACE, 3);
    s := Play(policy, RACE[..4]);
  }

  /** A refund and a rollback of the same bet, both processed, and the stake of 100 given back twice. */
  predicate DoublyReversed(w: World) {
    && 6 in w.txs && w.txs[6].tx.ident.kind.Bet? && w.txs[6].tx.ident.money == Units(100)
    && 10 in w.txs && Reverses(w.txs[10].tx, 6) && 14 in w.txs && Reverses(w.txs[14].tx, 6)
    && 1 in w.wallets && w.wallets[1].balance == Units(1100)
  }

  lemma RefundFirst(w: World)
    requires At(w, 10, 900, 2, map[2 := OpeningRow(), 6 := BetRow()])
    ensures var r := ReverseOn(w, REFUND, 6, RowAt(900, 2));
            && r.Ok? && AfterRefund(r.value.0)
  {
    hide ReverseOn;
    ReversalLands(w, Refund, "refund", 900, 2);
  }

  predicate AfterRefund(w: World) {
    && At(w, 14, 1000, 3, w.txs) && w.txs.Keys == {2, 6, 10} && w.txs[6] == BetRow()
    && w.txs[10] == Landed(Refund, "refund", "bet", 10, Some(6), 1000) && w.txs[2] == OpeningRow()
  }

  lemma RollbackSecond(w: World)
    requires AfterRefund(w)
    ensures var r := ReverseOn(w, ROLLBACK, 6, RowAt(1000, 3));
            && r.Ok? && DoublyReversed(r.value.0)
  {
    hide ReverseOn, CanonicalPayload;
    assert Unused(w.txs, "rollback");
    ReversalLands(w, Rollback, "rollback", 1000, 3);
  }

  lemma CommitsVetted(s: System, policy: RetryPolicy, client: nat, cmd: Command, target: Id, row: WalletRow)
    requires client in s.vetted && s.vetted[client] == (cmd, target) && target in s.world.txs
    requires cmd.walletID in s.world.wallets && s.world.wallets[cmd.walletID] == row
    requires ReverseOn(s.world, cmd, target, row).Ok?
    ensures Perform(s, policy, ReverseVetted(client, Stored))
            == s.(world := ReverseOn(s.world, cmd, target, row).value.0)
  {
    hide ReverseOn, After, Vets, Passes, CreateOn, Attempt, SettleListed;
  }

  lemma TwiceReversed(txs: map<Id, TxRow>, a: Id, b: Id, target: Id)
    requires a in txs && b in txs && a != b && Reverses(txs[a].tx, target) && Reverses(txs[b].tx, target)
    ensures !ReversedOnce(txs)
  {
    assert IsReversal(txs[a].tx) && IsReversal(txs[b].tx);
  }

  lemma FirstCommits(policy: RetryPolicy) returns (s: System)
    ensures s == Play(policy, RACE[..5]) && AfterRefund(s.world) && 2 in s.vetted && s.vetted[2] == (ROLLBACK, 6)
  {
    hide Play, ReverseOn, At, Perform, AfterRefund;
    s := BothHaveVetted(policy);
    RefundFirst(s.world);
    WalletIs(s.world, 10, 900, 2, map[2 := OpeningRow(), 6 := BetRow()]);
    CommitsVetted(s, policy, 1, REFUND, 6, RowAt(900, 2));
    PlayNext(policy, RACE, 4);
    s := Play(policy, RACE[..5]);
  }

  /**
   * The wallet opens with 1000 and bets 100; two clients vet a refund and a rollback of the bet, then both commit.
   * The bet has two processed reversals with an entry each, and the wallet ends with 1100.
   */
  lemma ReversalsCanRace(policy: RetryPolicy)
    ensures DoublyReversed(Play(policy, RACE).world)
    ensures !ReversedOnce(Play(policy, RACE).world.txs) && !PaidBackOnce(Play(policy, RACE).world)
  {
    hide Play, ReverseOn, At, Perform, ReversedOnce, AfterRefund, PaidBackOnce, Filed, Kept, PaidBack;
    var s := FirstCommits(policy);
    KeepsBet(s.world);
    RollbackSecond(s.world);
    CommitsVetted(s, policy, 2, ROLLBACK, 6, RowAt(1000, 3));
    PlayNext(policy, RACE, 5);
    assert RACE[..6] == RACE;
    TwiceReversed(Play(policy, RACE).world.txs, 10, 14, 6);
    PlayFiles(policy, RACE[..5]);
    PlayKeeps(policy, RACE[..5]);
    RefundIsPaid(s.world);
    RollbackPaysAgain(s, ROLLBACK, RowAt(1000, 3));
  }

  lemma RefundIsPaid(w: World)
    requires AfterRefund(w) && Filed(w)
    ensures PaidBack(w, "studio", "bet")
  {
    hide CanonicalPayload, PaidBack, HasEntry;
    ReversalIsPaid(w, 10);
  }

  /** A processed reversal has paid back its reference. */
  lemma ReversalIsPaid(w: World, r: Id)
    requires Filed(w) && r in w.txs && IsReversal(w.txs[r].tx)
    ensures PaidBack(w, w.txs[r].tx.ident.providerID, w.txs[r].tx.ident.reference)
  {
    hide Files;
    var i :| 0 <= i < |w.ledger| && w.ledger[i].transactionID == r;
    assert PaysBack(w.txs, w.ledger[i], w.txs[r].tx.ident.providerID, w.txs[r].tx.ident.reference);
  }

  /** A rollback of the bet that commits on the stored wallet breaks the promise if the bet was paid back before. */
  lemma RollbackPaysAgain(s: System, cmd: Command, row: WalletRow)
    requires Kept(s) && Filed(s.world) && cmd == ROLLBACK && 6 in s.world.txs && s.world.txs[6] == BetRow()
    requires 1 in s.world.wallets && s.world.wallets[1] == row && PaidBack(s.world, "studio", "bet")
    requires ReverseOn(s.world, cmd, 6, row).Ok?
    ensures !PaidBackOnce(ReverseOn(s.world, cmd, 6, row).value.0)
  {
    hide Sound, Filed, ReverseOn, PaidBack, PaidBackOnce, Balanced, EventsKnown, Reads, CanonicalPayload;
    StoredIsPast(s.world, 1);
    VettedReversesOnceExactly(s.world, cmd, 6, row);
    CreditIsNeverRefused(row, cmd.amount, cmd.now);
  }

  lemma CreditIsNeverRefused(row: WalletRow, amount: Money, now: Time)
    ensures !Refuses(row, Ledger.Credit, amount, now)
  {
  }

  lemma KeepsBet(w: World)
    requires AfterRefund(w)
    ensures 6 in w.txs && w.txs[6] == BetRow() && 1 in w.wallets && w.wallets[1] == RowAt(1000, 3)
  {
  }

  lemma WalletIs(w: World, next: Id, balance: int64, version: int64, txs: map<Id, TxRow>)
    requires At(w, next, balance, version, txs)
    ensures w.txs == txs && w.next == next && 1 in w.wallets && w.wallets[1] == RowAt(balance, version)
  {
  }

  // ---- a reversal hidden by a second resolver ----

  /**
   * A refund is parked and listed by a slow resolver; its bet arrives and a quick resolver processes it; the slow one
   * then works on what it listed, and last a rollback of the same bet is submitted.
   */
  const HIDDEN: seq<Act> := [Locked(OPENING), Locked(Submit(REFUND, true)), List(1, 6, 0), Locked(Submit(BET, true)),
                             Locked(Resolve(6, 0, true)), AttemptListed(1), Locked(Submit(ROLLBACK, true))]

  lemma LockedPlays(policy: RetryPolicy, acts: seq<Act>, k: nat, step: Step)
    requires k < |acts| && acts[k] == Locked(step)
    ensures Play(policy, acts[..k + 1])
            == Play(policy, acts[..k]).(world := After(Play(policy, acts[..k]).world, policy, step))
  {
    hide Play, After;
    PlayNext(policy, acts, k);
  }

  lemma ListedByNow(policy: RetryPolicy)
    ensures Play(policy, HIDDEN[..3]).world == Run(policy, [OPENING, Submit(REFUND, true)])
    ensures Play(policy, HIDDEN[..3]).listed == map[1 := (ParkedRow(6).tx, 0)]
  {
    hide Play, After, Run;
    StartsEmpty(policy);
    assert HIDDEN[..0] == [];
    LockedPlays(policy, HIDDEN, 0, OPENING);
    LockedPlays(policy, HIDDEN, 1, Submit(REFUND, true));
    EmptyRun(policy);
    RunAppends(policy, [], OPENING);
    RunAppends(policy, [OPENING], Submit(REFUND, true));
    assert [] + [OPENING] == [OPENING] && [OPENING] + [Submit(REFUND, true)] == [OPENING, Submit(REFUND, true)];
    ParkedRun(policy);
    PlayNext(policy, HIDDEN, 2);
  }

  lemma ProcessedByNow(policy: RetryPolicy)
    ensures Play(policy, HIDDEN[..5]).world == Run(policy, PROCESSED_ONCE)
    ensures Play(policy, HIDDEN[..5]).listed == map[1 := (ParkedRow(6).tx, 0)]
  {
    hide Play, After, Run;
    ListedByNow(policy);
    LockedPlays(policy, HIDDEN, 3, Submit(BET, true));
    LockedPlays(policy, HIDDEN, 4, Resolve(6, 0, true));
    RunAppends(policy, [OPENING, Submit(REFUND, true)], Submit(BET, true));
    RunAppends(policy, PROCESSED_ONCE[..3], Resolve(6, 0, true));
    assert PROCESSED_ONCE[..3] == [OPENING, Submit(REFUND, true)] + [Submit(BET, true)];
    assert PROCESSED_ONCE == PROCESSED_ONCE[..3] + [Resolve(6, 0, true)];
  }

  function HiddenRow(): TxRow {
    ParkedRow(6).(tx := RejectedTx(ParkedRow(6).tx, DuplicateReversal, 0))
  }

  function Hidden(): map<Id, TxRow> {
    Arrived()[6 := HiddenRow()]
  }

  /** The slow resolver hides the refund's row; its entry stays. */
  lemma OverwrittenByNow(policy: RetryPolicy) returns (s: System)
    ensures s == Play(policy, HIDDEN[..6])
    ensures At(s.world, 16, 1000, 3, Hidden()) && PaidBack(s.world, "studio", "bet")
  {
    hide Play, Run, Sound, Consistent, Filed, PaidBack, Attempt, CanonicalPayload, At;
    ProcessedByNow(policy);
    FirstResolverProcesses(policy);
    var w := Run(policy, PROCESSED_ONCE);
    RunIsSound(policy, PROCESSED_ONCE);
    RunIsConsistent(policy, PROCESSED_ONCE);
    RefundIsOverwritten(w, policy);
    PlayFiles(policy, HIDDEN[..5]);
    PlayKeeps(policy, HIDDEN[..5]);
    PlayNext(policy, HIDDEN, 5);
    s := Play(policy, HIDDEN[..6]);
    PaidBackStays(w, s.world);
  }

  lemma RefundIsOverwritten(w: World, policy: RetryPolicy)
    requires Sound(w) && Consistent(w) && At(w, 15, 1000, 3, Arrived()[6 := RefundedRow()])
    ensures var r := Attempt(w, policy, ParkedRow(6).tx, 0);
            r.Ok? && At(r.value.0, 16, 1000, 3, Hidden()) && r.value.0.ledger == w.ledger
            && r.value.0.txs.Keys == w.txs.Keys
  {
    hide Sound, Attempt, CanonicalPayload, Booked1to1, ReversedOnce;
    StaleSnapshotOverwrites(w, policy, 6, ParkedRow(6).tx, 8, 0);
  }

  lemma PaidBackStays(w: World, w': World)
    requires Filed(w) && At(w, 15, 1000, 3, Arrived()[6 := RefundedRow()]) && At(w', 16, 1000, 3, Hidden())
    requires w'.ledger == w.ledger
    ensures PaidBack(w', "studio", "bet")
  {
    hide Filed, PaidBack, CanonicalPayload;
    ReversalIsPaid(w, 6);
    OnceUnmoved(w, w');
  }

  /** By rows the bet is unreversed again, so the rollback passes every check and pays the stake back once more. */
  lemma RollbackFollows(w: World)
    requires Sound(w) && At(w, 16, 1000, 3, Hidden())
    ensures MovesBack(w, IdentOf(ROLLBACK, w.next), 0)
    ensures var r := Create(w, ROLLBACK);
            r.Ok? && At(r.value.0, 20, 1100, 4, Hidden()[16 := Landed(Rollback, "rollback", "bet", 16, Some(8), 1100)])
  {
    hide Sound, CanonicalPayload, Reverse, Settle, At, InsertTx, Create, MovesBack, Hidden, Landed, Unused, Unreversed;
    WalletIs(w, 16, 1000, 3, Hidden());
    NothingNamesRollback(w);
    RollbackIsReversal(w);
    RollbackMovesBack(w);
    Lands(w, Rollback, "rollback", "bet", Some(8), ReversalExceedsBalance, Ledger.Credit, 1000, 1100, 3);
  }

  lemma RollbackMovesBack(w: World)
    requires Sound(w) && w.txs == Hidden() && 1 in w.wallets && Unreversed(w.txs, 8)
    ensures MovesBack(w, IdentOf(ROLLBACK, w.next), 0)
  {
    hide Sound, CanonicalPayload, Unreversed, Refuses;
    SoundLookup(w, "studio", "bet", 8);
    CreditIsNeverRefused(w.wallets[1], Units(100), 0);
  }

  lemma NothingNamesRollback(w: World)
    requires w.txs == Hidden()
    ensures Unused(w.txs, "rollback") && Unreversed(w.txs, 8) && Novel(w, ROLLBACK) && 8 in w.txs && 16 !in w.txs
  {
    hide CanonicalPayload;
  }

  lemma RollbackIsReversal(w: World)
    requires Sound(w) && w.txs == Hidden() && 1 in w.wallets && w.next == 16
    requires Novel(w, ROLLBACK) && Unreversed(w.txs, 8)
    ensures var p := IdentOf(ROLLBACK, w.next);
            var w1 := w.(txs := w.txs[p.id := TxRow(FreshTx(p), 0, None)], next := w.next + 1);
            Create(w, ROLLBACK) == Settle(w1, FreshTx(p), Some(8), Ledger.Credit, ReversalExceedsBalance, 0)
  {
    hide Sound, CanonicalPayload, Settle, InsertTx, Create, Unreversed, CountReversals, ExternalFault, Novel, Writable;
    var p := IdentOf(ROLLBACK, w.next);
    var w1 := w.(txs := w.txs[p.id := TxRow(FreshTx(p), 0, None)], next := w.next + 1);
    WellFormedRequest(Rollback, "rollback", "bet", w.next);
    InsertSucceedsExactly(w, ROLLBACK);
    SoundLookup(w, "studio", "bet", 8);
    DecidingIsReversing(w, ROLLBACK);
    SameReversals(w, w1, p, 8);
    NoReversals(w1.txs, 8);
  }

  lemma OneRowReverses(txs: map<Id, TxRow>)
    requires txs == Hidden()[16 := Landed(Rollback, "rollback", "bet", 16, Some(8), 1100)]
    ensures ReversedOnce(txs)
  {
    hide CanonicalPayload;
  }

  /**
   * The stake of 100 is given back twice and the wallet ends with 1100, although at most one row reverses the bet.
   */
  lemma OverwriteHidesReversal(policy: RetryPolicy)
    ensures var w := Play(policy, HIDDEN).world;
            && 1 in w.wallets && w.wallets[1].balance == Units(1100)
            && ReversedOnce(w.txs) && !PaidBackOnce(w)
  {
    hide Play, After, At, Sound, Filed, Create, MovesBack, PaidBack, PaidBackOnce, ReversedOnce, Balanced, EventsKnown,
         Reads, CanonicalPayload;
    var s := OverwrittenByNow(policy);
    PlayKeeps(policy, HIDDEN[..6]);
    PlayFiles(policy, HIDDEN[..6]);
    RollbackFollows(s.world);
    SerialStep(s.world, policy, ROLLBACK);
    assert ROLLBACK.(inbox := None) == ROLLBACK;
    LockedPlays(policy, HIDDEN, 6, Submit(ROLLBACK, true));
    assert HIDDEN[..7] == HIDDEN;
    var w := Play(policy, HIDDEN).world;
    CreatePaysBackOnceExactly(s.world, ROLLBACK);
    WalletIs(w, 20, 1100, 4, Hidden()[16 := Landed(Rollback, "rollback", "bet", 16, Some(8), 1100)]);
    OneRowReverses(w.txs);
  }
}
