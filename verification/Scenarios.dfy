/** Concrete runs, each of which reaches a state that the general theorems only speak about. */
module Scenarios {
  import opened Prelude
  import opened Int64
  import opened MoneyDomain
  import opened WalletDomain
  import opened WagerDomain
  import opened Store
  import opened Engine
  import opened Runs
  import opened References
  import opened Idempotency
  import opened Browsing
  import opened Decisions
  import opened StatusSafety
  import opened Expiry
  import opened Redelivery
  import Ledger = LedgerDomain

  // ---- one wallet and requests for it ----

  function Units(n: int64): Money {
    Money(n, "BRL")
  }

  function Request(kind: Kind, external: string, reference: string): Command {
    Command("studio", external, external, 7, 1, "round", "game", kind, Units(100), reference, 0, None)
  }

  function RowAt(balance: int64, version: int64): WalletRow {
    WalletRow(1, 7, Units(balance), version, 0, 0)
  }

  function Landed(kind: Kind, external: string, reference: string, id: Id, target: Option<Id>, balance: int64): TxRow {
    var p := IdentOf(Request(kind, external, reference), id);
    TxRow(Tx(p, Status.Processed, NoCode, target, Some(Units(balance)), 0), 0, None)
  }

  function Fund(n: int64): Step {
    OpenWallet(OpenCommand(7, Units(n), 0), true)
  }

  const OPENING: Step := Fund(1000)
  const BET: Command := Request(Bet, "bet", "")
  const REFUND: Command := Request(Refund, "refund", "bet")
  const ROLLBACK: Command := Request(Rollback, "rollback", "bet")

  /** One wallet with this balance and version, these transactions, and a ledger that is behind the supply. */
  predicate At(w: World, next: Id, balance: int64, version: int64, txs: map<Id, TxRow>) {
    && w.next == next && w.wallets == map[1 := RowAt(balance, version)] && w.txs == txs
    && forall i :: 0 <= i < |w.ledger| ==> w.ledger[i].id < next && w.ledger[i].transactionID < next
  }

  function FundedRow(n: int64): TxRow {
    TxRow(OpeningTx(2, 1, 7, Units(n), 0), 0, None)
  }

  function OpeningRow(): TxRow {
    FundedRow(1000)
  }

  /** The wallet after it was opened, before its opening credit. */
  function Unfunded(n: int64): World {
    EMPTY.(wallets := map[1 := RowAt(n, 1)], next := 2)
  }

  lemma CreditLands(n: int64)
    requires n > 0
    ensures CreditOpening(Unfunded(n), 1, OpenCommand(7, Units(n), 0)).Ok?
    ensures At(CreditOpening(Unfunded(n), 1, OpenCommand(7, Units(n), 0)).value, 6, n, 1, map[2 := FundedRow(n)])
  {
    var cmd := OpenCommand(7, Units(n), 0);
    Ledger.NewIsExact(3, 1, 2, Ledger.Credit, Units(n), Units(0), Units(n), 0);
    hide Ledger.New;
    var t := OpeningTx(2, 1, 7, Units(n), 0);
    var w2 := Unfunded(n).(txs := map[2 := FundedRow(n)], next := 3);
    assert InsertTx(Unfunded(n).(next := 3), t) == Ok(w2);
    hide InsertTx;
    var entry := Ledger.Entry(3, 1, 2, Ledger.Credit, Units(n), Units(0), Units(n), 0);
    assert w2.ledger + [entry] == [entry];
    assert OpeningEntry(w2, 1, 2, cmd) == Ok(w2.(next := 4, ledger := [entry]));
  }

  lemma AfterFunding(policy: RetryPolicy, n: int64)
    requires n > 0
    ensures At(After(EMPTY, policy, Fund(n)), 6, n, 1, map[2 := FundedRow(n)])
  {
    hide CreditOpening, At;
    CreditLands(n);
    assert InsertWallet(EMPTY.(next := 2), RowAt(n, 1)) == Ok(Unfunded(n));
  }

  lemma AfterOpening(policy: RetryPolicy)
    ensures At(After(EMPTY, policy, OPENING), 6, 1000, 1, map[2 := OpeningRow()])
  {
    hide At, After;
    AfterFunding(policy, 1000);
  }

  lemma OpenedIsSound(policy: RetryPolicy)
    ensures Sound(After(EMPTY, policy, OPENING))
  {
    RunIsSound(policy, [OPENING]);
    hide Sound, After;
    assert [OPENING][..0] == [];
  }

  /** A movement the balance allows commits when its entry is new, and its whole effect is known. */
  lemma SettleCommits(w: World, t: Tx, reference: Option<Id>, direction: Ledger.Direction, code: FailureCode, now: Time,
                      row': WalletRow, m: Movement)
    requires var p := t.ident;
             && p.walletID in w.wallets && w.wallets[p.walletID].id == p.walletID && p.id in w.txs
             && p.id != NIL && p.walletID != NIL && w.next != NIL
             && MoveOf(w.wallets[p.walletID], direction, p.money, now) == Ok((row', m))
             && m.after.minorUnits >= 0 && 1 <= w.wallets[p.walletID].version < 1000
             && forall i :: 0 <= i < |w.ledger| ==> w.ledger[i].id != w.next && w.ledger[i].transactionID != p.id
    requires reference.Some? ==> reference.value in w.txs
    requires t.failure == NoCode && t.resolved.None? && w.txs[t.ident.id].tx.ident == t.ident
    requires m.after.currency == t.ident.money.currency
    ensures var r := Settle(w, t, reference, direction, code, now);
            var done := Tx(t.ident, Status.Processed, NoCode, reference, Some(m.after), now);
            && r.Ok? && r.value.1 == done
            && r.value.0 == w.(wallets := w.wallets[t.ident.walletID := row'],
                               txs := w.txs[t.ident.id := w.txs[t.ident.id].(tx := done)],
                               ledger := w.ledger + [Ledger.Entry(w.next, t.ident.walletID, t.ident.id, direction,
                                                                  t.ident.money, m.before, m.after, now)],
                               outbox := r.value.0.outbox, next := w.next + 3)
  {
    BookSucceedsExactly(w, t.ident, row', m, direction, now);
    hide Book, MoveOf;
  }

  /** No stored transaction clashes with a request for this external transaction. */
  predicate Unused(txs: map<Id, TxRow>, external: string) {
    forall id :: id in txs ==> txs[id].tx.ident.externalID != external && txs[id].tx.ident.key != external
  }

  lemma InsertFits(w: World, cmd: Command)
    requires cmd.walletID in w.wallets && w.next !in w.txs && cmd.amount.minorUnits >= 0
    requires forall id :: id in w.txs ==> w.txs[id].tx.ident.externalID != cmd.externalID
                                          && w.txs[id].tx.ident.key != cmd.key
    ensures var p := IdentOf(cmd, w.next);
            InsertTx(w.(next := w.next + 1), FreshTx(p))
            == Ok(w.(txs := w.txs[p.id := TxRow(FreshTx(p), 0, None)], next := w.next + 1))
  {
  }

  lemma MoveIs(direction: Ledger.Direction, balance: int64, after: int64, version: int64)
    requires 1 <= version < 1000 && 0 <= after && 0 <= balance
    requires after as int == balance + Ledger.Signed(direction, 100)
    ensures MoveOf(RowAt(balance, version), direction, Units(100), 0)
            == Ok((RowAt(after, version + 1), Movement(Units(balance), Units(after), version + 1)))
  {
    WrapNearby(version + 1);
    WrapNearby(after);
    WrapNearby(-100);
  }

  /** A request for 100 that nothing clashes with gets its row and moves the wallet. */
  lemma Lands(w: World, kind: Kind, external: string, reference: string, target: Option<Id>, code: FailureCode,
              direction: Ledger.Direction, balance: int64, after: int64, version: int64)
    requires At(w, w.next, balance, version, w.txs) && w.next > 1 && w.next !in w.txs && Unused(w.txs, external)
    requires target.Some? ==> target.value in w.txs
    requires 1 <= version < 1000 && 0 <= after && 0 <= balance
    requires after as int == balance + Ledger.Signed(direction, 100)
    ensures var p := IdentOf(Request(kind, external, reference), w.next);
            var w1 := w.(txs := w.txs[p.id := TxRow(FreshTx(p), 0, None)], next := w.next + 1);
            var r := Settle(w1, FreshTx(p), target, direction, code, 0);
            && InsertTx(w.(next := w.next + 1), FreshTx(p)) == Ok(w1) && r.Ok?
            && At(r.value.0, w.next + 4, after, version + 1,
                  w.txs[p.id := Landed(kind, external, reference, p.id, target, after)])
  {
    hide Settle, MoveOf, InsertTx, DebitOf, CreditOf, CanonicalPayload;
    var p := IdentOf(Request(kind, external, reference), w.next);
    var w1 := w.(txs := w.txs[p.id := TxRow(FreshTx(p), 0, None)], next := w.next + 1);
    MoveIs(direction, balance, after, version);
    SettleCommits(w1, FreshTx(p), target, direction, code, 0, RowAt(after, version + 1),
                  Movement(Units(balance), Units(after), version + 1));
    InsertFits(w, Request(kind, external, reference));
  }

  function Played(kind: Kind, balance: int): int {
    if kind.Bet? then balance - 100 else balance + 100
  }

  lemma WellFormedPlain(kind: Kind, external: string, id: Id)
    requires (kind.Bet? || kind.Win?) && external != "" && id != NIL
    ensures ExternalFault(IdentOf(Request(kind, external, ""), id)) == None
  {
    hide CanonicalPayload;
  }

  /** A bet on a wallet that can pay for it, or a win that fits. */
  lemma PlainLands(w: World, kind: Kind, external: string, balance: int64, version: int64)
    requires At(w, w.next, balance, version, w.txs) && w.next > 1 && w.next !in w.txs
    requires Unused(w.txs, external) && external != "" && (kind.Bet? || kind.Win?)
    requires 1 <= version < 1000 && 0 <= balance && 0 <= Played(kind, balance) <= MAX
    ensures var r := Create(w, Request(kind, external, ""));
            && r.Ok?
            && At(r.value.0, w.next + 4, Played(kind, balance), version + 1,
                  w.txs[w.next := Landed(kind, external, "", w.next, None, Played(kind, balance))])
  {
    var direction := if kind.Bet? then Ledger.Debit else Ledger.Credit;
    WellFormedPlain(kind, external, w.next);
    Lands(w, kind, external, "", None, InsufficientFunds, direction, balance, Played(kind, balance), version);
    hide Settle, InsertTx, CanonicalPayload, At, Unused, ExternalFault;
  }

  lemma AfterPlain(w: World, policy: RetryPolicy, kind: Kind, external: string, balance: int64, version: int64)
    requires Sound(w) && At(w, w.next, balance, version, w.txs) && w.next > 1 && w.next !in w.txs
    requires Unused(w.txs, external) && external != "" && (kind.Bet? || kind.Win?)
    requires 1 <= version < 1000 && 0 <= balance && 0 <= Played(kind, balance) <= MAX
    ensures At(After(w, policy, Submit(Request(kind, external, ""), true)), w.next + 4, Played(kind, balance),
               version + 1, w.txs[w.next := Landed(kind, external, "", w.next, None, Played(kind, balance))])
  {
    PlainLands(w, kind, external, balance, version);
    hide Create, After, Sound, At, Unused, Played;
    var cmd := Request(kind, external, "");
    SerialStep(w, policy, cmd);
    assert cmd.(inbox := None) == cmd;
  }

  lemma AfterBet(w: World, policy: RetryPolicy, external: string, balance: int64, version: int64)
    requires Sound(w) && At(w, w.next, balance, version, w.txs) && w.next > 1 && w.next !in w.txs
    requires Unused(w.txs, external) && external != ""
    requires 1 <= version < 1000 && 100 <= balance
    ensures At(After(w, policy, Submit(Request(Bet, external, ""), true)), w.next + 4, balance - 100, version + 1,
               w.txs[w.next := Landed(Bet, external, "", w.next, None, balance - 100)])
  {
    hide After, Sound, At, Unused;
    AfterPlain(w, policy, Bet, external, balance, version);
  }

  lemma WellFormedRequest(kind: Kind, external: string, reference: string, id: Id)
    requires RequiresReference(kind) && external != "" && reference != "" && id != NIL
    ensures ExternalFault(IdentOf(Request(kind, external, reference), id)) == None
  {
    hide CanonicalPayload;
  }

  function ParkedRow(id: Id): TxRow {
    TxRow(ParkedTx(FreshTx(IdentOf(REFUND, id)), 0), 0, None)
  }

  /** A refund whose bet is not there yet is parked. */
  lemma RefundWaits(w: World, balance: int64, version: int64)
    requires At(w, w.next, balance, version, w.txs) && w.next > 1 && w.next !in w.txs
    requires Unused(w.txs, "refund") && Unused(w.txs, "bet")
    ensures var r := Create(w, REFUND);
            && r.Ok? && r.value.1 == ParkedRow(w.next).tx
            && At(r.value.0, w.next + 2, balance, version, w.txs[w.next := ParkedRow(w.next)])
  {
    hide CanonicalPayload, ExternalFault, Create, Park;
    var p := IdentOf(REFUND, w.next);
    var w1 := w.(txs := w.txs[p.id := TxRow(FreshTx(p), 0, None)], next := w.next + 1);
    WellFormedRequest(Refund, "refund", "bet", w.next);
    InsertFits(w, REFUND);
    hide InsertTx;
    assert FindExternal(w1.txs, "studio", "bet") == None;
    MissingIsParked(w, w1);
    ParkLands(w1, p);
  }

  lemma RefundParks(w: World, policy: RetryPolicy, balance: int64, version: int64)
    requires Sound(w) && At(w, w.next, balance, version, w.txs) && w.next > 1 && w.next !in w.txs
    requires Unused(w.txs, "refund") && Unused(w.txs, "bet")
    ensures At(After(w, policy, Submit(REFUND, true)), w.next + 2, balance, version, w.txs[w.next := ParkedRow(w.next)])
  {
    hide Create, CanonicalPayload, After, Sound, At, Unused;
    RefundWaits(w, balance, version);
    SerialStep(w, policy, REFUND);
    assert REFUND.(inbox := None) == REFUND;
  }

  lemma MissingIsParked(w: World, w1: World)
    requires InsertTx(w.(next := w.next + 1), FreshTx(IdentOf(REFUND, w.next))) == Ok(w1)
    requires ExternalFault(IdentOf(REFUND, w.next)) == None && FindExternal(w1.txs, "studio", "bet") == None
    ensures Create(w, REFUND) == Park(w1, FreshTx(IdentOf(REFUND, w.next)), 0)
  {
    hide Park, InsertTx, CanonicalPayload, ExternalFault;
  }

  lemma ParkLands(w: World, p: Ident)
    requires p.id in w.txs && w.txs[p.id] == TxRow(FreshTx(p), 0, None)
    ensures Park(w, FreshTx(p), 0).Ok? && Park(w, FreshTx(p), 0).value.1 == ParkedTx(FreshTx(p), 0)
    ensures Park(w, FreshTx(p), 0).value.0
            == w.(txs := w.txs[p.id := TxRow(ParkedTx(FreshTx(p), 0), 0, None)], next := w.next + 1,
                  outbox := Park(w, FreshTx(p), 0).value.0.outbox)
  {
  }

  lemma OpenedRun(policy: RetryPolicy)
    ensures At(Run(policy, [OPENING]), 6, 1000, 1, map[2 := OpeningRow()])
  {
    AfterOpening(policy);
    hide After, At;
    assert [OPENING][..0] == [];
  }

  lemma ParkedRun(policy: RetryPolicy)
    ensures At(Run(policy, [OPENING, Submit(REFUND, true)]), 8, 1000, 1, map[2 := OpeningRow(), 6 := ParkedRow(6)])
  {
    hide Run, After, Sound;
    OpenedRun(policy);
    RunIsSound(policy, [OPENING]);
    RefundParks(Run(policy, [OPENING]), policy, 1000, 1);
    RunAppends(policy, [OPENING], Submit(REFUND, true));
    assert [OPENING, Submit(REFUND, true)] == [OPENING] + [Submit(REFUND, true)];
  }

  // ---- two resolvers, the slower one with an outdated snapshot ----

  /** A time at which a row created at zero is past the maximum age. */
  function Late(policy: RetryPolicy): Time {
    if policy.maxAge > 0 then policy.maxAge else 0
  }

  /** The refund is parked, a first resolver rejects it for its age, and only then its bet arrives. */
  function RejectedBeforeBet(policy: RetryPolicy): seq<Step> {
    [OPENING, Submit(REFUND, true), Resolve(6, Late(policy), true), Submit(BET, true)]
  }

  function RejectedRow(policy: RetryPolicy): TxRow {
    ParkedRow(6).(tx := RejectedTx(ParkedRow(6).tx, FailureCode.ReferenceNotFound, Late(policy)))
  }

  lemma ParkedExpires(w: World, policy: RetryPolicy)
    requires Sound(w) && At(w, 8, 1000, 1, map[2 := OpeningRow(), 6 := ParkedRow(6)])
    ensures At(After(w, policy, Resolve(6, Late(policy), true)), 9, 1000, 1,
               map[2 := OpeningRow(), 6 := RejectedRow(policy)])
  {
    hide Sound, Attempt, Settle, CanonicalPayload;
    assert FindExternal(w.txs, "studio", "bet") == None;
    ExpiryRejects(w, policy, 6, Late(policy));
  }

  lemma RejectedRun(policy: RetryPolicy)
    ensures At(Run(policy, RejectedBeforeBet(policy)[..3]), 9, 1000, 1,
               map[2 := OpeningRow(), 6 := RejectedRow(policy)])
  {
    hide Run, Sound, After;
    var parked := [OPENING, Submit(REFUND, true)];
    ParkedRun(policy);
    RunIsSound(policy, parked);
    ParkedExpires(Run(policy, parked), policy);
    RunAppends(policy, parked, Resolve(6, Late(policy), true));
    assert RejectedBeforeBet(policy)[..3] == parked + [Resolve(6, Late(policy), true)];
  }

  lemma BetAfterRejection(policy: RetryPolicy)
    ensures At(Run(policy, RejectedBeforeBet(policy)), 13, 900, 2,
               map[2 := OpeningRow(), 6 := RejectedRow(policy), 9 := Landed(Bet, "bet", "", 9, None, 900)])
  {
    hide Run, Sound, After;
    var steps := RejectedBeforeBet(policy)[..3];
    RejectedRun(policy);
    RunIsSound(policy, steps);
    AfterBet(Run(policy, steps), policy, "bet", 1000, 1);
    RunAppends(policy, steps, Submit(BET, true));
    assert RejectedBeforeBet(policy) == steps + [Submit(BET, true)];
  }

  /** The second resolver, with the row as it was parked, brings the rejected refund back to life. */
  lemma SecondResolverRevives(policy: RetryPolicy, now: Time)
    ensures var steps := RejectedBeforeBet(policy);
            var w, snapshot := Run(policy, steps), ParkedRow(6).tx;
            && 6 in Run(policy, steps[..2]).txs && snapshot == Run(policy, steps[..2]).txs[6].tx
            && 6 in w.txs && w.txs[6].tx.status.Rejected?
            && (var r := Attempt(w, policy, snapshot, now);
                && r.Ok? && 6 in r.value.0.txs && r.value.0.txs[6].tx.status.Processed?
                && exists e: Ledger.Entry :: e.transactionID == 6 && r.value.0.ledger == w.ledger + [e])
  {
    hide Run, Sound, Consistent, Attempt, CanonicalPayload;
    var steps := RejectedBeforeBet(policy);
    var w := Run(policy, steps);
    ParkedRun(policy);
    assert steps[..2] == [OPENING, Submit(REFUND, true)];
    BetAfterRejection(policy);
    RunIsOrderly(policy, steps);
    RunIsConsistent(policy, steps);
    hide Orderly;
    assert CanReverse(w, w.txs[6].tx.ident, 9);
    StaleSnapshotRevives(w, policy, 6, ParkedRow(6).tx, 9, now);
  }

  /** The bet arrives while the refund is parked, and a first resolver processes the refund. */
  const PROCESSED_ONCE: seq<Step> := [OPENING, Submit(REFUND, true), Submit(BET, true), Resolve(6, 0, true)]

  lemma BetWhileParked(policy: RetryPolicy)
    ensures At(Run(policy, PROCESSED_ONCE[..3]), 12, 900, 2,
               map[2 := OpeningRow(), 6 := ParkedRow(6), 8 := Landed(Bet, "bet", "", 8, None, 900)])
  {
    hide Run, Sound, After;
    var parked := [OPENING, Submit(REFUND, true)];
    ParkedRun(policy);
    RunIsSound(policy, parked);
    AfterBet(Run(policy, parked), policy, "bet", 1000, 1);
    RunAppends(policy, parked, Submit(BET, true));
    assert PROCESSED_ONCE[..3] == parked + [Submit(BET, true)];
  }

  /** The parked refund, processed. */
  function RefundedRow(): TxRow {
    ParkedRow(6).(tx := Tx(ParkedRow(6).tx.ident, Status.Processed, NoCode, Some(8), Some(Units(1000)), 0))
  }

  /** What is in the tables when the refund's bet has arrived. */
  function Arrived(): map<Id, TxRow> {
    map[2 := OpeningRow(), 6 := ParkedRow(6), 8 := Landed(Bet, "bet", "", 8, None, 900)]
  }

  lemma ArrivedIsSettled(w: World, policy: RetryPolicy)
    requires Sound(w) && w.txs == Arrived()
    ensures var t := ParkedRow(6).tx;
            Attempt(w, policy, t, 0) == Resolved(Settle(w, t, Some(8), Ledger.Credit, ReversalExceedsBalance, 0))
  {
    hide Sound, CanonicalPayload, Settle, CountReversals, Refuse;
    SoundLookup(w, "studio", "bet", 8);
    NoReversals(w.txs, 8);
  }

  lemma ArrivedSettles(w: World)
    requires At(w, 12, 900, 2, Arrived()) && forall i :: 0 <= i < |w.ledger| ==> w.ledger[i].transactionID != 6
    ensures var r := Settle(w, ParkedRow(6).tx, Some(8), Ledger.Credit, ReversalExceedsBalance, 0);
            r.Ok? && At(r.value.0, 15, 1000, 3, Arrived()[6 := RefundedRow()])
  {
    hide CanonicalPayload, MoveOf, Settle;
    MoveIs(Ledger.Credit, 900, 1000, 2);
    SettleCommits(w, ParkedRow(6).tx, Some(8), Ledger.Credit, ReversalExceedsBalance, 0, RowAt(1000, 3),
                  Movement(Units(900), Units(1000), 3));
  }

  /** A parked refund whose bet is stored is processed by an attempt. */
  lemma AttemptProcesses(w: World, policy: RetryPolicy)
    requires Sound(w) && Consistent(w) && At(w, 12, 900, 2, Arrived())
    ensures At(After(w, policy, Resolve(6, 0, true)), 15, 1000, 3, Arrived()[6 := RefundedRow()])
  {
    hide Sound, Consistent, Settle, Attempt, At, Arrived;
    ArrivedIsDue(w);
    UnprocessedHasNoEntry(w, 6);
    ArrivedIsSettled(w, policy);
    ArrivedSettles(w);
  }

  lemma ArrivedIsDue(w: World)
    requires At(w, 12, 900, 2, Arrived())
    ensures w.txs == Arrived() && 6 in w.txs && w.txs[6] == ParkedRow(6) && Due(w.txs[6], 0)
  {
  }

  lemma FirstResolverProcesses(policy: RetryPolicy)
    ensures At(Run(policy, PROCESSED_ONCE), 15, 1000, 3, Arrived()[6 := RefundedRow()])
  {
    hide Run, Sound, Consistent, After;
    var steps := PROCESSED_ONCE[..3];
    BetWhileParked(policy);
    RunIsSound(policy, steps);
    RunIsConsistent(policy, steps);
    AttemptProcesses(Run(policy, steps), policy);
    RunAppends(policy, steps, Resolve(6, 0, true));
    assert PROCESSED_ONCE == steps + [Resolve(6, 0, true)];
  }

  /** The second resolver overwrites the processed refund with a rejection. */
  lemma SecondResolverOverwrites(policy: RetryPolicy, now: Time)
    ensures var w, snapshot := Run(policy, PROCESSED_ONCE), ParkedRow(6).tx;
            && 6 in Run(policy, PROCESSED_ONCE[..2]).txs && snapshot == Run(policy, PROCESSED_ONCE[..2]).txs[6].tx
            && 6 in w.txs && w.txs[6].tx.status.Processed?
            && (var r := Attempt(w, policy, snapshot, now);
                && r.Ok? && r.value.0.ledger == w.ledger && 6 in r.value.0.txs
                && r.value.0.txs[6].tx == RejectedTx(snapshot, DuplicateReversal, now))
  {
    hide Run, Sound, Attempt, CanonicalPayload;
    ParkedRun(policy);
    assert PROCESSED_ONCE[..2] == [OPENING, Submit(REFUND, true)];
    FirstResolverProcesses(policy);
    RunIsSound(policy, PROCESSED_ONCE);
    RunIsConsistent(policy, PROCESSED_ONCE);
    StaleSnapshotOverwrites(Run(policy, PROCESSED_ONCE), policy, 6, ParkedRow(6).tx, 8, now);
  }

  // ---- waiting as long as can be ----

  /** The refund is parked at time zero and then attempted k times, one base backoff apart. */
  function Waiting(policy: RetryPolicy, k: nat): seq<Step> {
    if k == 0 then [OPENING, Submit(REFUND, true)]
    else Waiting(policy, k - 1) + [Resolve(6, (k - 1) * policy.baseBackoff, true)]
  }

  function WaitingRow(policy: RetryPolicy, k: nat): TxRow {
    if k == 0 then ParkedRow(6)
    else ParkedRow(6).(attempts := 1, retryAt := Some((k - 1) * policy.baseBackoff + policy.baseBackoff))
  }

  /** One more attempt before the maximum age puts the row off once more. */
  lemma PutOffAgain(w: World, policy: RetryPolicy, k: nat)
    requires policy.baseBackoff > 0 && k * policy.baseBackoff < policy.maxAge
    requires w.txs == map[2 := OpeningRow(), 6 := WaitingRow(policy, k)]
    ensures var step := Resolve(6, k * policy.baseBackoff, true);
            && NotEarly(w, step, 6) && PutsOff(w, policy, step, 6)
            && After(w, policy, step).txs == map[2 := OpeningRow(), 6 := WaitingRow(policy, k + 1)]
  {
    hide CanonicalPayload;
    assert FindExternal(w.txs, "studio", "bet") == None;
    BackoffsAddUp(policy, k);
  }

  lemma BackoffsAddUp(policy: RetryPolicy, k: nat)
    requires policy.baseBackoff > 0
    ensures k * policy.baseBackoff >= 0
    ensures k > 0 ==> (k - 1) * policy.baseBackoff + policy.baseBackoff == k * policy.baseBackoff
  {
  }

  lemma {:induction false} StillWaiting(policy: RetryPolicy, k: nat)
    requires policy.baseBackoff > 0 && (k > 0 ==> (k - 1) * policy.baseBackoff < policy.maxAge)
    ensures Run(policy, Waiting(policy, k)).txs == map[2 := OpeningRow(), 6 := WaitingRow(policy, k)]
    ensures NoEarlyAttempt(policy, Waiting(policy, k), 6) && Reschedules(policy, Waiting(policy, k), 6) == k
  {
    hide Run, PutsOff, NotEarly, After, CanonicalPayload;
    if k == 0 {
      ParkedRun(policy);
      NoAttempts(policy);
    } else {
      BackoffsAddUp(policy, k - 1);
      StillWaiting(policy, k - 1);
      var before, step := Waiting(policy, k - 1), Resolve(6, (k - 1) * policy.baseBackoff, true);
      PutOffAgain(Run(policy, before), policy, k - 1);
      RunAppends(policy, before, step);
      assert (before + [step])[..|before|] == before;
    }
  }

  /** Other steps neither attempt the row nor put it off. */
  lemma OnlyResolversAttempt(policy: RetryPolicy, steps: seq<Step>, step: Step)
    requires !step.Resolve? && NoEarlyAttempt(policy, steps, 6) && Reschedules(policy, steps, 6) == 0
    ensures NoEarlyAttempt(policy, steps + [step], 6) && Reschedules(policy, steps + [step], 6) == 0
  {
    hide Run;
    assert (steps + [step])[..|steps|] == steps;
  }

  lemma NoAttempts(policy: RetryPolicy)
    ensures NoEarlyAttempt(policy, Waiting(policy, 0), 6) && Reschedules(policy, Waiting(policy, 0), 6) == 0
  {
    hide Run;
    var steps := Waiting(policy, 0);
    assert [OPENING][..0] == [] && steps[..1] == [OPENING];
    OnlyResolversAttempt(policy, [], OPENING);
    OnlyResolversAttempt(policy, [OPENING], Submit(REFUND, true));
    assert [OPENING] == [] + [OPENING] && steps == [OPENING] + [Submit(REFUND, true)];
  }

  /** What is rounded up is less than one step ahead. */
  lemma CeilIsTight(age: int, step: int, k: int)
    requires step > 0 && k == CeilDiv(age, step) && k > 0
    ensures (k - 1) * step < age
  {
    FloorTimes(age + step - 1, step);
    assert (k - 1) * step == k * step - step;
  }

  lemma FloorTimes(n: nat, d: int)
    requires d > 0
    ensures (n / d) * d <= n
  {
    FloorBounds(n, d);
  }

  /**
   * The bound on waiting is reached: some run puts the row off exactly ceil(maxAge / baseBackoff) times, and so more
   * often than any attempt budget below that number would allow.
   */
  lemma WaitingBoundIsReached(policy: RetryPolicy)
    requires policy.baseBackoff > 0
    ensures var k := CeilDiv(policy.maxAge, policy.baseBackoff);
            && k >= 0 && NoEarlyAttempt(policy, Waiting(policy, k), 6)
            && Reschedules(policy, Waiting(policy, k), 6) == k
            && (policy.maxAttempts < k ==> Reschedules(policy, Waiting(policy, k), 6) > policy.maxAttempts)
  {
    hide Reschedules, NoEarlyAttempt;
    var k := CeilDiv(policy.maxAge, policy.baseBackoff);
    CeilIsNatural(policy.maxAge, policy.baseBackoff);
    if k > 0 {
      CeilIsTight(policy.maxAge, policy.baseBackoff, k);
    }
    StillWaiting(policy, k);
  }

  lemma CeilIsNatural(age: int, step: int)
    requires step > 0
    ensures CeilDiv(age, step) >= 0
  {
    if age > 0 {
      FloorBounds(age + step - 1, step);
    }
  }

  // ---- a loss in a foreign currency ----

  const LOSS: Command := Command("studio", "loss", "loss", 7, 1, "round", "game", Loss, Money(0, "USD"), "", 0, None)

  lemma LossSucceeds(policy: RetryPolicy)
    ensures Execute(Run(policy, [OPENING]), LOSS).Ok? && !Execute(Run(policy, [OPENING]), LOSS).value.1.replay
  {
    hide Run, Create, CanonicalPayload;
    var w := Run(policy, [OPENING]);
    OpenedRun(policy);
    assert Novel(w, LOSS) && FullySpecified(LOSS);
    CommandsSucceedExactly(policy, [OPENING], LOSS);
    hide Process, Novel, Ruled;
  }

  /** The first answer to the loss is in the wallet's currency, its replay in the command's. */
  lemma ReplayCanDiffer(policy: RetryPolicy)
    ensures var first := Execute(Run(policy, [OPENING]), LOSS);
            var again := Execute(Run(policy, [OPENING, Submit(LOSS, true)]), LOSS);
            && first.Ok? && again.Ok? && again.value.1.replay
            && again.value.1.transactionID == first.value.1.transactionID
            && first.value.1.balance == Some(Units(1000)) && again.value.1.balance == Some(Money(1000, "USD"))
  {
    hide Run, Execute, Sound, OwnsAlone, AtMostOneEntry;
    var w0, steps := Run(policy, [OPENING]), [OPENING, Submit(LOSS, true)];
    LossSucceeds(policy);
    OpenedRun(policy);
    RunIsSound(policy, [OPENING]);
    assert steps[..1] == [OPENING] && steps[..2] == steps;
    AnswerInCurrency(w0, LOSS);
    FirstSuccessOwns(w0, LOSS);
    AfterCommit(policy, steps, 1, LOSS);
    ExactlyOnce(policy, steps, 1, LOSS, LOSS);
  }

  // ---- a seen message under another key ----

  const MESSAGE: InboxKey := ("consumer", "message")
  const FROM_MESSAGE: Command := BET.(inbox := Some(MESSAGE))
  const OTHER_BET: Command := Request(Bet, "other", "")

  lemma MessageLands(w: World, policy: RetryPolicy)
    requires Sound(w) && At(w, 6, 1000, 1, map[2 := OpeningRow()]) && w.inbox == map[]
    ensures Execute(w, FROM_MESSAGE).Ok?
    ensures At(After(w, policy, Submit(FROM_MESSAGE, true)), 10, 900, 2,
               map[2 := OpeningRow(), 6 := Landed(Bet, "bet", "", 6, None, 900)])
  {
    var w1 := Entered(w, FROM_MESSAGE);
    PlainLands(w1, Bet, "bet", 1000, 1);
    EnteredIsSound(w, FROM_MESSAGE);
    assert Create(w1, FROM_MESSAGE) == Create(w1, BET) by {
      hide InsertTx, Dispatch, CanonicalPayload, At, Sound;
    }
    hide Create, Sound, CanonicalPayload;
    CreateIsProcess(w1, FROM_MESSAGE);
    hide Process;
  }

  lemma OpenedInbox(policy: RetryPolicy)
    ensures Run(policy, [OPENING]).inbox == map[]
  {
    assert [OPENING][..0] == [];
    hide Open, Changes;
    if Open(EMPTY, OPENING.open).Ok? {
      RunIsSound(policy, []);
      OpenEffect(EMPTY, OPENING.open);
    }
  }

  /** A bet from a message, then another bet over HTTP. */
  const TWO_BETS: seq<Step> := [OPENING, Submit(FROM_MESSAGE, true), Submit(OTHER_BET, true)]

  lemma TwoBetsRun(policy: RetryPolicy)
    ensures Execute(Run(policy, [OPENING]), FROM_MESSAGE).Ok?
    ensures At(Run(policy, TWO_BETS), 14, 800, 3,
               map[2 := OpeningRow(), 6 := Landed(Bet, "bet", "", 6, None, 900),
                   10 := Landed(Bet, "other", "", 10, None, 800)])
  {
    hide Run, After, Sound, Execute;
    OpenedRun(policy);
    OpenedInbox(policy);
    RunIsSound(policy, [OPENING]);
    MessageLands(Run(policy, [OPENING]), policy);
    var one := [OPENING, Submit(FROM_MESSAGE, true)];
    RunAppends(policy, [OPENING], Submit(FROM_MESSAGE, true));
    assert one == [OPENING] + [Submit(FROM_MESSAGE, true)];
    RunIsSound(policy, one);
    AfterBet(Run(policy, one), policy, "other", 900, 2);
    RunAppends(policy, one, Submit(OTHER_BET, true));
    assert TWO_BETS == one + [Submit(OTHER_BET, true)];
  }

  /** The first message once more, under the second bet's key, is answered with the second bet. */
  lemma MessageAnsweredForAnotherBet(policy: RetryPolicy)
    ensures var w := Run(policy, TWO_BETS);
            && 10 in w.txs && w.txs[10].tx.ident.externalID == "other" && FROM_MESSAGE.externalID == "bet"
            && Execute(w, FROM_MESSAGE.(key := "other")) == Ok((w, ResultOf(w.txs[10].tx, true)))
  {
    hide Run, Execute;
    TwoBetsRun(policy);
    assert TWO_BETS[..1] == [OPENING];
    assert Reuses(Run(policy, TWO_BETS).txs, 10, FROM_MESSAGE.(key := "other"));
    SeenMessageAnswersForAnotherKey(policy, TWO_BETS, 1, FROM_MESSAGE, 10, "other");
  }

  // ---- a found reference that cannot be reversed ----

  const WIN: Command := Request(Win, "win", "")

  /** A wallet at the largest balance: the refund is parked, its bet arrives, and a win fills the wallet up again. */
  const FULL: seq<Step> := [Fund(MAX), Submit(REFUND, true), Submit(BET, true), Submit(WIN, true)]

  function FullRows(): map<Id, TxRow> {
    map[2 := FundedRow(MAX), 6 := ParkedRow(6), 8 := Landed(Bet, "bet", "", 8, None, MAX - 100),
        12 := Landed(Win, "win", "", 12, None, MAX)]
  }

  lemma RunStep(policy: RetryPolicy, steps: seq<Step>, k: nat)
    requires k < |steps|
    ensures Run(policy, steps[..k + 1]) == After(Run(policy, steps[..k]), policy, steps[k])
  {
    hide After;
    assert steps[..k + 1][..k] == steps[..k];
  }

  lemma ParkedWhenFull(policy: RetryPolicy)
    ensures At(Run(policy, FULL[..2]), 8, MAX, 1, map[2 := FundedRow(MAX), 6 := ParkedRow(6)])
  {
    hide Run, After, Sound, CanonicalPayload;
    RunStep(policy, FULL, 0);
    RunStep(policy, FULL, 1);
    StartsEmptyRun(policy);
    assert FULL[..0] == [];
    AfterFunding(policy, MAX);
    RunIsSound(policy, FULL[..1]);
    RefundParks(Run(policy, FULL[..1]), policy, MAX, 1);
  }

  lemma StartsEmptyRun(policy: RetryPolicy)
    ensures Run(policy, []) == EMPTY
  {
  }

  lemma BetWhenFull(policy: RetryPolicy)
    ensures At(Run(policy, FULL[..3]), 12, MAX - 100, 2,
               map[2 := FundedRow(MAX), 6 := ParkedRow(6), 8 := Landed(Bet, "bet", "", 8, None, MAX - 100)])
  {
    hide Run, After, Sound, CanonicalPayload;
    ParkedWhenFull(policy);
    RunStep(policy, FULL, 2);
    RunIsSound(policy, FULL[..2]);
    AfterPlain(Run(policy, FULL[..2]), policy, Bet, "bet", MAX, 1);
  }

  lemma FullRun(policy: RetryPolicy)
    ensures At(Run(policy, FULL), 16, MAX, 3, FullRows())
  {
    hide Run, After, Sound, CanonicalPayload;
    BetWhenFull(policy);
    RunStep(policy, FULL, 3);
    assert FULL[..4] == FULL;
    RunIsSound(policy, FULL[..3]);
    AfterPlain(Run(policy, FULL[..3]), policy, Win, "win", MAX - 100, 2);
  }

  /** The bet may be reversed, but the wallet has no room for its stake. */
  lemma FullCannotDecide(w: World)
    requires Sound(w) && At(w, 16, MAX, 3, FullRows())
    ensures 6 in w.txs && w.txs[6] == ParkedRow(6) && 8 in w.txs && FindExternal(w.txs, "studio", "bet") == Some(8)
    ensures !CanDecide(w, w.txs[6].tx.ident, 8)
  {
    hide Sound, CanonicalPayload;
    SoundLookup(w, "studio", "bet", 8);
  }

  /**
   * The reference has arrived, and still every attempt errs, however late: the row stays parked, and a poll that
   * lists it gets no further than it.
   */
  lemma FoundIsNotEnough(policy: RetryPolicy, due: seq<Tx>, now: Time, commits: Id -> CommitResult)
    requires due != [] && due[0] == ParkedRow(6).tx
    ensures var w := Run(policy, FULL);
            && 6 in w.txs && w.txs[6] == ParkedRow(6) && Due(w.txs[6], now)
            && FindExternal(w.txs, "studio", "bet").Some?
            && After(w, policy, Resolve(6, now, true)) == w
            && Poll(w, policy, due, now, commits).world == w && Poll(w, policy, due, now, commits).error.Some?
            && Poll(w, policy, due, now, commits).resolved + Poll(w, policy, due, now, commits).rescheduled == 0
  {
    hide Run, After, Sound, Orderly, Consistent, Attempt, CanonicalPayload, At, CanDecide;
    var w := Run(policy, FULL);
    FullRun(policy);
    RunIsOrderly(policy, FULL);
    RunIsConsistent(policy, FULL);
    RunIsSound(policy, FULL);
    FullCannotDecide(w);
    ArrivalDecides(w, policy, 6, now);
  }

  // ---- a replay of a parked refund ----

  /** The refund is first answered as waiting, and its replay, once it was resolved, as processed with a balance. */
  lemma ParkedReplayDiffers(policy: RetryPolicy)
    ensures var first := Execute(Run(policy, [OPENING]), REFUND);
            var w := Run(policy, PROCESSED_ONCE);
            && first.Ok? && !first.value.1.replay && first.value.1.transactionID == 6
            && first.value.1.status == ResultPendingReference && first.value.1.balance == None
            && 6 in w.txs
            && ResultOf(w.txs[6].tx, true) == ProcessResult(6, ResultProcessed, Some(Units(1000)), NoCode, true)
  {
    hide Run, Sound, At, CanonicalPayload, Create, FindKey;
    OpenedRun(policy);
    RunIsSound(policy, [OPENING]);
    var w := Run(policy, [OPENING]);
    WaitingAnswer(w);
    FirstResolverProcesses(policy);
    ProcessedAnswer(Run(policy, PROCESSED_ONCE));
  }

  lemma WaitingAnswer(w: World)
    requires Sound(w) && At(w, 6, 1000, 1, map[2 := OpeningRow()])
    ensures var first := Execute(w, REFUND);
            && first.Ok? && !first.value.1.replay && first.value.1.transactionID == 6
            && first.value.1.status == ResultPendingReference && first.value.1.balance == None
  {
    RefundWaits(w, 1000, 1);
    hide CanonicalPayload, Create, Sound;
    CreateIsProcess(w, REFUND);
    hide Process;
  }

  lemma ProcessedAnswer(w: World)
    requires At(w, 15, 1000, 3, Arrived()[6 := RefundedRow()])
    ensures 6 in w.txs
    ensures ResultOf(w.txs[6].tx, true) == ProcessResult(6, ResultProcessed, Some(Units(1000)), NoCode, true)
  {
    hide CanonicalPayload;
  }
}
