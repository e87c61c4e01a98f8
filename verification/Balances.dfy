/**
 * What every run keeps true of money: each wallet's ledger entries form a chain from zero to the stored balance, and
 * the balance events tell the same story with consecutive versions.
 */
module Balances {
  import opened Prelude
  import opened Int64
  import opened MoneyDomain
  import opened WalletDomain
  import opened WagerDomain
  import opened Store
  import opened Engine
  import opened Runs
  import Ledger = LedgerDomain

  /** One wallet's entries, in commit order. */
  function EntriesOf(ledger: seq<Ledger.Entry>, walletID: Id): seq<Ledger.Entry> {
    if ledger == [] then []
    else
      var last := ledger[|ledger| - 1];
      EntriesOf(ledger[..|ledger| - 1], walletID) + if last.walletID == walletID then [last] else []
  }

  /** One wallet's BalanceChanged events, in commit order. */
  function EventsOf(outbox: seq<OutboxRecord>, walletID: Id): seq<Event> {
    if outbox == [] then []
    else
      var last := outbox[|outbox| - 1].event;
      EventsOf(outbox[..|outbox| - 1], walletID)
      + if last.BalanceChanged? && last.walletID == walletID then [last] else []
  }

  function Total(entries: seq<Ledger.Entry>): int {
    if entries == [] then 0
    else
      var last := entries[|entries| - 1];
      Total(entries[..|entries| - 1]) + Ledger.Signed(last.direction, last.money.minorUnits)
  }

  predicate SoundEntry(e: Ledger.Entry, currency: string) {
    && e.money.currency == e.before.currency == e.after.currency == currency
    && e.money.minorUnits > 0 && e.after.minorUnits >= 0
    && e.after.minorUnits == e.before.minorUnits + Ledger.Signed(e.direction, e.money.minorUnits)
  }

  predicate Reports(ev: Event, e: Ledger.Entry) {
    && ev.BalanceChanged?
    && ev == BalanceChanged(e.walletID, e.transactionID, e.direction, e.money, e.before, e.after, ev.version)
  }

  predicate IsOpening(txs: map<Id, TxRow>, e: Ledger.Entry) {
    e.transactionID in txs && txs[e.transactionID].tx.ident.kind.Opening?
  }

  /**
   * The wallet's history: entries chain from zero to the balance, event k reports entry k, versions are consecutive
   * up to the stored one, and only a first entry can be the opening credit, which keeps version 1.
   */
  ghost predicate History(txs: map<Id, TxRow>, es: seq<Ledger.Entry>, evs: seq<Event>, row: WalletRow) {
    && |evs| == |es|
    && (forall k :: 0 <= k < |es| ==> SoundEntry(es[k], row.balance.currency) && Reports(evs[k], es[k]))
    && (forall k :: 0 < k < |es| ==> es[k].before == es[k - 1].after && evs[k].version == evs[k - 1].version + 1
                                     && es[k].transactionID in txs && !IsOpening(txs, es[k]))
    && (if es == [] then row.balance.minorUnits == 0 && row.version == 1
        else
          && es[0].before.minorUnits == 0 && es[0].transactionID in txs
          && evs[0].version == (if IsOpening(txs, es[0]) then 1 else 2)
          && es[|es| - 1].after == row.balance && evs[|es| - 1].version == row.version)
  }

  ghost predicate Balanced(w: World) {
    && (forall id :: id in w.wallets ==>
                       History(w.txs, EntriesOf(w.ledger, id), EventsOf(w.outbox, id), w.wallets[id]))
    && (forall i :: 0 <= i < |w.ledger| ==> w.ledger[i].walletID in w.wallets)
  }

  // ---- preservation ----

  lemma EntriesOfAppend(ledger: seq<Ledger.Entry>, e: Ledger.Entry, walletID: Id)
    ensures EntriesOf(ledger + [e], walletID) ==
            if e.walletID == walletID then EntriesOf(ledger, walletID) + [e] else EntriesOf(ledger, walletID)
  {
    assert (ledger + [e])[..|ledger|] == ledger;
  }

  lemma EventsOfAppend(outbox: seq<OutboxRecord>, rec: OutboxRecord, walletID: Id)
    ensures EventsOf(outbox + [rec], walletID) ==
            if rec.event.BalanceChanged? && rec.event.walletID == walletID
            then EventsOf(outbox, walletID) + [rec.event] else EventsOf(outbox, walletID)
  {
    assert (outbox + [rec])[..|outbox|] == outbox;
  }

  lemma EventsOfNote(w: World, w': World, walletID: Id)
    requires AnnouncedNote(w, w')
    ensures EventsOf(w'.outbox, walletID) == EventsOf(w.outbox, walletID)
  {
    assert w'.outbox == w.outbox + [w'.outbox[|w.outbox|]];
    EventsOfAppend(w.outbox, w'.outbox[|w.outbox|], walletID);
  }

  lemma EventsOfMove(w: World, w': World, e: Ledger.Entry, version: int64, walletID: Id)
    requires AnnouncedMove(w, w', e, version)
    ensures EventsOf(w'.outbox, walletID) ==
            if e.walletID == walletID then EventsOf(w.outbox, walletID) + [EventOf(e, version)]
            else EventsOf(w.outbox, walletID)
  {
    var n := |w.outbox|;
    assert w'.outbox == w.outbox + [w'.outbox[n]] + [w'.outbox[n + 1]];
    EventsOfAppend(w.outbox, w'.outbox[n], walletID);
    EventsOfAppend(w.outbox + [w'.outbox[n]], w'.outbox[n + 1], walletID);
  }

  /** Histories only look at the kinds of transactions, which never change. */
  lemma HistoryFrame(txs: map<Id, TxRow>, txs': map<Id, TxRow>, es: seq<Ledger.Entry>, evs: seq<Event>, row: WalletRow)
    requires History(txs, es, evs, row) && Extends(txs, txs')
    ensures History(txs', es, evs, row)
  {
  }

  lemma HistoryExtends(txs: map<Id, TxRow>, es: seq<Ledger.Entry>, evs: seq<Event>, row: WalletRow, row': WalletRow,
                       e: Ledger.Entry, ev: Event)
    requires History(txs, es, evs, row)
    requires e.transactionID in txs && !IsOpening(txs, e) && e.before == row.balance && e.after == row'.balance
    requires SoundEntry(e, row'.balance.currency) && row'.balance.currency == row.balance.currency
    requires Reports(ev, e) && ev.version == row'.version && row'.version as int == row.version + 1
    ensures History(txs, es + [e], evs + [ev], row')
  {
  }

  function EventOf(e: Ledger.Entry, version: int64): Event {
    BalanceChanged(e.walletID, e.transactionID, e.direction, e.money, e.before, e.after, version)
  }

  /** The history of the moved wallet grows by one entry and one event; the others stay. */
  lemma BookedKeepsHistory(w: World, w': World, b: Booking, id: Id)
    requires Sound(w) && Extends(w.txs, w'.txs) && Moved(w, w', b) && id in w.wallets
    requires History(w.txs, EntriesOf(w.ledger, id), EventsOf(w.outbox, id), w.wallets[id])
    ensures History(w'.txs, EntriesOf(w'.ledger, id), EventsOf(w'.outbox, id), w'.wallets[id])
  {
    hide UniqueKeys, RowSound, EntriesOf, EventsOf, History;
    var es, evs := EntriesOf(w.ledger, id), EventsOf(w.outbox, id);
    HistoryFrame(w.txs, w'.txs, es, evs, w.wallets[id]);
    EntriesOfAppend(w.ledger, b.entry, id);
    EventsOfMove(w, w', b.entry, b.version, id);
    if id == b.entry.walletID {
      HistoryExtends(w'.txs, es, evs, w.wallets[id], b.row, b.entry, EventOf(b.entry, b.version));
    }
  }

  /** Nothing mentions a wallet before it exists. */
  lemma NoHistoryBefore(w: World, id: Id)
    requires Balanced(w) && EventsKnown(w) && id !in w.wallets
    ensures EntriesOf(w.ledger, id) == [] && EventsOf(w.outbox, id) == []
  {
    NoEntries(w.ledger, id);
    NoEvents(w.outbox, id);
  }

  ghost predicate EventsKnown(w: World) {
    forall i :: 0 <= i < |w.outbox| && w.outbox[i].event.BalanceChanged? ==> w.outbox[i].event.walletID in w.wallets
  }

  lemma {:induction false} NoEntries(ledger: seq<Ledger.Entry>, id: Id)
    requires forall i :: 0 <= i < |ledger| ==> ledger[i].walletID != id
    ensures EntriesOf(ledger, id) == []
  {
    if ledger != [] {
      NoEntries(ledger[..|ledger| - 1], id);
    }
  }

  lemma {:induction false} NoEvents(outbox: seq<OutboxRecord>, id: Id)
    requires forall i :: 0 <= i < |outbox| && outbox[i].event.BalanceChanged? ==> outbox[i].event.walletID != id
    ensures EventsOf(outbox, id) == []
  {
    if outbox != [] {
      NoEvents(outbox[..|outbox| - 1], id);
    }
  }

  lemma EventsKnownPreserved(w: World, w': World, c: Change)
    requires Sound(w) && EventsKnown(w) && Alters(w, w', c)
    ensures EventsKnown(w')
  {
    hide Sound, EventsKnown, Alters, Rewrites;
    AlterationRewrites(w, w', c);
    EventsKnownRewritten(w, w', c);
  }

  lemma EventsKnownRewritten(w: World, w': World, c: Change)
    requires Sound(w) && EventsKnown(w) && Rewrites(w, w', c)
    ensures EventsKnown(w')
  {
    hide UniqueKeys, RowSound, Rewritable, Wrote, Told;
    forall i | 0 <= i < |w'.outbox| && w'.outbox[i].event.BalanceChanged?
      ensures w'.outbox[i].event.walletID in w'.wallets
    {
      if i < |w.outbox| {
        assert w'.outbox[i] == w'.outbox[..|w.outbox|][i] == w.outbox[i];
      }
    }
  }

  lemma CreditedKeepsHistory(w: World, w': World, row: WalletRow, t: Tx, e: Ledger.Entry, id: Id)
    requires Sound(w) && Extends(w.txs, w'.txs) && Alters(w, w', Credited(row, t, e)) && id in w'.wallets
    requires if id == row.id then EntriesOf(w.ledger, id) == [] && EventsOf(w.outbox, id) == []
             else History(w.txs, EntriesOf(w.ledger, id), EventsOf(w.outbox, id), w.wallets[id])
    ensures History(w'.txs, EntriesOf(w'.ledger, id), EventsOf(w'.outbox, id), w'.wallets[id])
  {
    hide UniqueKeys, RowSound, EntriesOf, EventsOf;
    hide History;
    EntriesOfAppend(w.ledger, e, id);
    EventsOfMove(w, w', e, 1, id);
    if id == row.id {
      OpeningHistory(w'.txs, row, e);
      assert EntriesOf(w'.ledger, id) == [e] && EventsOf(w'.outbox, id) == [EventOf(e, 1)];
    } else {
      HistoryFrame(w.txs, w'.txs, EntriesOf(w.ledger, id), EventsOf(w.outbox, id), w.wallets[id]);
    }
  }

  lemma OpeningHistory(txs: map<Id, TxRow>, row: WalletRow, e: Ledger.Entry)
    requires IsOpening(txs, e) && row.version == 1 && row.balance.minorUnits > 0
    requires e == Ledger.Entry(e.id, row.id, e.transactionID, Ledger.Credit, row.balance,
                               Money(0, row.balance.currency), row.balance, e.createdAt)
    ensures History(txs, [e], [EventOf(e, 1)], row)
  {
  }

  lemma HistoryPreserved(w: World, w': World, c: Change, id: Id)
    requires Sound(w) && Extends(w.txs, w'.txs) && Rewrites(w, w', c) && id in w'.wallets
    requires if id !in w.wallets then EntriesOf(w.ledger, id) == [] && EventsOf(w.outbox, id) == []
             else History(w.txs, EntriesOf(w.ledger, id), EventsOf(w.outbox, id), w.wallets[id])
    ensures History(w'.txs, EntriesOf(w'.ledger, id), EventsOf(w'.outbox, id), w'.wallets[id])
  {
    hide History, EntriesOf, EventsOf, UniqueKeys, RowSound, Extends, Wrote, Rewritable, AnnouncedMove, AnnouncedNote,
         Carried;
    match c
    case Booked(b) => BookedKeepsHistory(w, w', b, id);
    case Credited(row, t, e) => CreditedKeepsHistory(w, w', row, t, e, id);
    case Noted(t) =>
      EventsOfNote(w, w', id);
      HistoryFrame(w.txs, w'.txs, EntriesOf(w.ledger, id), EventsOf(w.outbox, id), w.wallets[id]);
    case Opened(row) =>
      if id == row.id {
        ZeroHistory(w'.txs, row);
      } else {
        HistoryFrame(w.txs, w'.txs, EntriesOf(w.ledger, id), EventsOf(w.outbox, id), w.wallets[id]);
      }
    case _ => HistoryFrame(w.txs, w'.txs, EntriesOf(w.ledger, id), EventsOf(w.outbox, id), w.wallets[id]);
  }

  lemma BalancedPreserved(w: World, w': World, c: Change)
    requires Sound(w) && Balanced(w) && EventsKnown(w) && Alters(w, w', c)
    ensures Balanced(w')
  {
    hide Sound, Balanced, EventsKnown, Alters, Rewrites;
    AlterationRewrites(w, w', c);
    BalancedRewritten(w, w', c);
  }

  lemma BalancedRewritten(w: World, w': World, c: Change)
    requires Sound(w) && Balanced(w) && EventsKnown(w) && Rewrites(w, w', c)
    ensures Balanced(w')
  {
    hide History, Rewrites, Sound, EntriesOf, EventsOf, Extends, EventsKnown;
    RewriteExtends(w, w', c);
    EntriesKnown(w, w', c);
    forall id | id in w'.wallets
      ensures History(w'.txs, EntriesOf(w'.ledger, id), EventsOf(w'.outbox, id), w'.wallets[id])
    {
      if id !in w.wallets {
        NoHistoryBefore(w, id);
      }
      HistoryPreserved(w, w', c, id);
    }
  }

  lemma ZeroHistory(txs: map<Id, TxRow>, row: WalletRow)
    requires row.version == 1 && row.balance.minorUnits == 0
    ensures History(txs, [], [], row)
  {
  }

  lemma EntriesKnown(w: World, w': World, c: Change)
    requires Sound(w) && Rewrites(w, w', c)
    requires forall i :: 0 <= i < |w.ledger| ==> w.ledger[i].walletID in w.wallets
    ensures forall i :: 0 <= i < |w'.ledger| ==> w'.ledger[i].walletID in w'.wallets
  {
    hide UniqueKeys, RowSound, Wrote, Rewritable, AnnouncedMove, AnnouncedNote;
  }

  lemma {:induction false} RunIsBalanced(policy: RetryPolicy, steps: seq<Step>)
    ensures Balanced(Run(policy, steps)) && EventsKnown(Run(policy, steps))
  {
    if steps != [] {
      var w := Run(policy, steps[..|steps| - 1]);
      RunIsBalanced(policy, steps[..|steps| - 1]);
      RunIsSound(policy, steps[..|steps| - 1]);
      StepChanges(w, policy, steps[|steps| - 1]);
      hide Balanced, EventsKnown, Sound, Alters, After;
      var c :| Changes(w, Run(policy, steps), c);
      BalancedPreserved(w, Run(policy, steps), c);
      EventsKnownPreserved(w, Run(policy, steps), c);
    }
  }

  // ---- what a history says ----

  function NonOpening(txs: map<Id, TxRow>, es: seq<Ledger.Entry>): nat {
    if es == [] then 0
    else NonOpening(txs, es[..|es| - 1]) + if IsOpening(txs, es[|es| - 1]) then 0 else 1
  }

  /** Every prefix of a history sums to the balance after its last entry. */
  lemma {:induction false} PrefixTotals(txs: map<Id, TxRow>, es: seq<Ledger.Entry>, evs: seq<Event>, row: WalletRow,
                                        k: nat)
    requires History(txs, es, evs, row) && k <= |es|
    ensures Total(es[..k]) == if k == 0 then 0 else es[k - 1].after.minorUnits as int
    ensures k > 0 ==> evs[k - 1].version == 1 + NonOpening(txs, es[..k])
  {
    if k > 0 {
      PrefixTotals(txs, es, evs, row, k - 1);
      assert es[..k][..k - 1] == es[..k - 1];
    }
  }

  /** The balance is the signed sum of the entries, and every prefix sum is a past balance. */
  ghost predicate Explains(txs: map<Id, TxRow>, es: seq<Ledger.Entry>, row: WalletRow) {
    && row.balance.minorUnits == Total(es) >= 0
    && row.version as int == 1 + NonOpening(txs, es)
    && (forall k :: 0 <= k < |es| ==> Total(es[..k]) == es[k].before.minorUnits
                                      && Total(es[..k + 1]) == es[k].after.minorUnits)
    && (forall k {:trigger es[..k]} :: 0 <= k <= |es| ==> 0 <= Total(es[..k]) <= MAX)
  }

  lemma HistoryExplains(txs: map<Id, TxRow>, es: seq<Ledger.Entry>, evs: seq<Event>, row: WalletRow)
    requires History(txs, es, evs, row)
    ensures Explains(txs, es, row)
  {
    forall k {:trigger es[..k]} | 0 <= k <= |es|
      ensures Total(es[..k]) == (if k == 0 then 0 else es[k - 1].after.minorUnits as int) && 0 <= Total(es[..k]) <= MAX
    {
      PrefixTotals(txs, es, evs, row, k);
    }
    PrefixTotals(txs, es, evs, row, |es|);
    assert es[..|es|] == es;
  }

  /**
   * After any run, each wallet's balance is the signed sum of its ledger, each prefix sum is a past balance that fits
   * and is not negative, each entry starts where the previous one ended, and the version counts the movements.
   */
  lemma LedgerExplainsBalance(policy: RetryPolicy, steps: seq<Step>, id: Id)
    requires id in Run(policy, steps).wallets
    ensures var w := Run(policy, steps); Explains(w.txs, EntriesOf(w.ledger, id), w.wallets[id])
  {
    hide Run, EntriesOf, EventsOf, History, Explains;
    var w := Run(policy, steps);
    RunIsBalanced(policy, steps);
    HistoryExplains(w.txs, EntriesOf(w.ledger, id), EventsOf(w.outbox, id), w.wallets[id]);
  }

  /** Replays balance events from a new wallet; none when one does not continue where the last one stopped. */
  function Replay(evs: seq<Event>): Option<(int, int)>
    requires forall k :: 0 <= k < |evs| ==> evs[k].BalanceChanged?
  {
    if evs == [] then Some((0, 1))
    else
      match Replay(evs[..|evs| - 1])
      case None => None
      case Some((balance, version)) =>
        var e := evs[|evs| - 1];
        var after: int := e.after.minorUnits;
        if e.before.minorUnits == balance && after == balance + Ledger.Signed(e.direction, e.money.minorUnits)
           && (e.version as int == version + 1 || (|evs| == 1 && e.version == 1))
        then Some((after, e.version as int)) else None
  }

  lemma {:induction false} ReplayPrefix(txs: map<Id, TxRow>, es: seq<Ledger.Entry>, evs: seq<Event>, row: WalletRow,
                                        k: nat)
    requires History(txs, es, evs, row) && k <= |es|
    ensures Replay(evs[..k]) ==
            if k == 0 then Some((0, 1)) else Some((es[k - 1].after.minorUnits as int, evs[k - 1].version as int))
  {
    if k > 0 {
      ReplayPrefix(txs, es, evs, row, k - 1);
      assert evs[..k][..k - 1] == evs[..k - 1];
    }
  }

  /**
   * After any run, a wallet's balance events match its ledger entries one to one in order, and replaying them from an
   * empty wallet gives exactly the stored balance and version.
   */
  lemma EventsReplayToWallet(policy: RetryPolicy, steps: seq<Step>, id: Id)
    requires id in Run(policy, steps).wallets
    ensures var w := Run(policy, steps);
            var es, evs := EntriesOf(w.ledger, id), EventsOf(w.outbox, id);
            && |evs| == |es| && (forall k :: 0 <= k < |es| ==> Reports(evs[k], es[k]))
            && Replay(evs) == Some((w.wallets[id].balance.minorUnits as int, w.wallets[id].version as int))
  {
    hide Run, EntriesOf, EventsOf;
    var w := Run(policy, steps);
    var es, evs, row := EntriesOf(w.ledger, id), EventsOf(w.outbox, id), w.wallets[id];
    RunIsBalanced(policy, steps);
    ReplayPrefix(w.txs, es, evs, row, |es|);
    assert evs[..|es|] == evs;
  }

  // ---- who owns the wallets ----

  ghost predicate OneWalletEach(wallets: map<Id, WalletRow>) {
    forall i, j :: i in wallets && j in wallets && i != j ==> !SameOwner(wallets[i], wallets[j])
  }

  /** A movement keeps the owner and the currency of its wallet. */
  lemma OwnersPreserved(w: World, w': World, c: Change)
    requires Sound(w) && OneWalletEach(w.wallets) && Alters(w, w', c)
    ensures OneWalletEach(w'.wallets)
  {
    hide UniqueKeys, RowSound, Wrote, Writable, AnnouncedMove, AnnouncedNote, Told, SawBalance, Unmoved;
    forall i, j | i in w'.wallets && j in w'.wallets && i != j
      ensures !SameOwner(w'.wallets[i], w'.wallets[j])
    {
      assert i in w.wallets && j in w.wallets ==> !SameOwner(w.wallets[i], w.wallets[j]);
    }
  }

  /** After any run, a player has at most one wallet in a currency. */
  lemma {:induction false} OneWalletPerCurrency(policy: RetryPolicy, steps: seq<Step>)
    ensures OneWalletEach(Run(policy, steps).wallets)
  {
    if steps != [] {
      var w := Run(policy, steps[..|steps| - 1]);
      OneWalletPerCurrency(policy, steps[..|steps| - 1]);
      RunIsSound(policy, steps[..|steps| - 1]);
      StepChanges(w, policy, steps[|steps| - 1]);
      hide OneWalletEach, Sound, Alters, After;
      var c :| Changes(w, Run(policy, steps), c);
      OwnersPreserved(w, Run(policy, steps), c);
    }
  }

  // ---- reconciliation ----

  datatype Reconciliation = Reconciliation(stored: Money, calculated: Money, difference: Money, consistent: bool,
                                           checkedEntries: nat)

  /** The order MAX(currency) compares by. */
  predicate LexLess(a: string, b: string) {
    if b == "" then false
    else if a == "" then true
    else if a[0] != b[0] then a[0] < b[0]
    else LexLess(a[1..], b[1..])
  }

  function MaxCurrency(es: seq<Ledger.Entry>): string {
    if es == [] then ""
    else
      var rest, last := MaxCurrency(es[..|es| - 1]), es[|es| - 1].money.currency;
      if LexLess(rest, last) then last else rest
  }

  /** Recompute the balance from the ledger and compare; with no entries there is no currency to compute in. */
  function Reconcile(w: World, id: Id): Result<Reconciliation, Error> {
    if id !in w.wallets then Err(NotFound)
    else
      var es := EntriesOf(w.ledger, id);
      var stored := w.wallets[id].balance;
      if !Fits(Total(es)) then Err(ScanFailed)
      else
        match FromMinorUnits(Total(es), MaxCurrency(es))
        case Err(e) => Err(e)
        case Ok(calculated) =>
          match Subtract(stored, calculated)
          case Err(e) => Err(e)
          case Ok(difference) =>
            Ok(Reconciliation(stored, calculated, difference, difference.minorUnits == 0, |es|))
  }

  lemma {:induction false} OneCurrency(es: seq<Ledger.Entry>, currency: string)
    requires ValidCurrency(currency) && forall k :: 0 <= k < |es| ==> es[k].money.currency == currency
    ensures MaxCurrency(es) == if es == [] then "" else currency
  {
    if es != [] {
      OneCurrency(es[..|es| - 1], currency);
      LexIrreflexive(currency);
    }
  }

  lemma {:induction false} LexIrreflexive(a: string)
    ensures !LexLess(a, a)
  {
    if a != "" {
      LexIrreflexive(a[1..]);
    }
  }

  lemma {:induction false} MaxIsOneOfThem(es: seq<Ledger.Entry>)
    requires es != []
    ensures exists k :: 0 <= k < |es| && MaxCurrency(es) == es[k].money.currency
  {
    var m := |es| - 1;
    if m > 0 {
      MaxIsOneOfThem(es[..m]);
      var k :| 0 <= k < m && MaxCurrency(es[..m]) == es[..m][k].money.currency;
      assert es[k].money.currency == MaxCurrency(es[..m]);
    }
    assert m == 0 ==> es[..m] == [] && MaxCurrency(es) == es[m].money.currency by {
      EmptyIsLeast(es[m].money.currency);
    }
  }

  lemma EmptyIsLeast(currency: string)
    requires ValidCurrency(currency)
    ensures LexLess("", currency)
  {
  }

  /** What reconciliation can compute: entries in one leading currency, and a sum and a gap that are int64s. */
  predicate Computable(stored: Money, es: seq<Ledger.Entry>) {
    && es != [] && MaxCurrency(es) == stored.currency
    && MIN < Total(es) <= MAX && Fits(stored.minorUnits as int - Total(es))
  }

  /**
   * On any tables, sound or not, reconciliation errs exactly when the wallet is missing or has nothing computable to
   * compare; otherwise it reports the gap between balance and ledger, and consistency exactly when there is none.
   */
  lemma ReconcileDetects(w: World, id: Id)
    ensures var r := Reconcile(w, id);
            var es := EntriesOf(w.ledger, id);
            && (r.Ok? <==> id in w.wallets && Computable(w.wallets[id].balance, es))
            && (r.Ok? ==>
                  && (r.value.consistent <==> w.wallets[id].balance.minorUnits == Total(es))
                  && r.value.difference.minorUnits == w.wallets[id].balance.minorUnits as int - Total(es)
                  && r.value.calculated.minorUnits == Total(es) && r.value.stored == w.wallets[id].balance
                  && r.value.calculated.currency == r.value.difference.currency == w.wallets[id].balance.currency
                  && r.value.checkedEntries == |es|)
            && (r.Err? ==>
                  r.error == if id !in w.wallets then NotFound
                             else if !Fits(Total(es)) then ScanFailed
                             else if es == [] || !ValidCurrency(MaxCurrency(es)) then InvalidCurrency
                             else if MaxCurrency(es) != w.wallets[id].balance.currency then MoneyCurrencyMismatch
                             else Overflow)
  {
    var es := EntriesOf(w.ledger, id);
    if id in w.wallets && Fits(Total(es)) {
      var stored := w.wallets[id].balance;
      if es == [] {
        assert MaxCurrency(es) == "";
      } else {
        MaxIsOneOfThem(es);
        SubtractIsExact(stored, Money(Total(es), MaxCurrency(es)));
      }
    }
  }

  /** After any run, reconciliation finds no difference, and refuses exactly the wallets without entries. */
  lemma ReconciliationAgrees(policy: RetryPolicy, steps: seq<Step>, id: Id)
    requires id in Run(policy, steps).wallets
    ensures var w := Run(policy, steps);
            var es := EntriesOf(w.ledger, id);
            var balance := w.wallets[id].balance;
            Reconcile(w, id) ==
            if es == [] then Err(InvalidCurrency)
            else Ok(Reconciliation(balance, balance, Money(0, balance.currency), true, |es|))
  {
    hide Run, EntriesOf, EventsOf, Reconcile, Total, MaxCurrency;
    var w := Run(policy, steps);
    RunIsBalanced(policy, steps);
    ReconcileHistory(w, id, EventsOf(w.outbox, id));
  }

  lemma ReconcileHistory(w: World, id: Id, evs: seq<Event>)
    requires id in w.wallets && History(w.txs, EntriesOf(w.ledger, id), evs, w.wallets[id])
    ensures var es := EntriesOf(w.ledger, id);
            var balance := w.wallets[id].balance;
            Reconcile(w, id) ==
            if es == [] then Err(InvalidCurrency)
            else Ok(Reconciliation(balance, balance, Money(0, balance.currency), true, |es|))
  {
    var es, balance := EntriesOf(w.ledger, id), w.wallets[id].balance;
    HistoryExplains(w.txs, es, evs, w.wallets[id]);
    OneCurrency(es, balance.currency);
    SubtractIsExact(balance, balance);
    hide EntriesOf, Total, MaxCurrency, Explains, History, NonOpening;
    assert Total(es) == balance.minorUnits;
  }
}
