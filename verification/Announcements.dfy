/**
 * What the outbox says of each transaction: at most one event that it was parked, then at most one that it ended,
 * and that one is true. Resulting balances are the balances of the moment.
 */
module Announcements {
  import opened Prelude
  import opened Int64
  import opened MoneyDomain
  import opened WalletDomain
  import opened WagerDomain
  import opened Store
  import opened Engine
  import opened Runs
  import opened References
  import opened Idempotency
  import Ledger = LedgerDomain

  /** The events about one transaction's status, in commit order. */
  function StatusEventsOf(outbox: seq<OutboxRecord>, id: Id): seq<Event> {
    if outbox == [] then []
    else
      var last := outbox[|outbox| - 1].event;
      StatusEventsOf(outbox[..|outbox| - 1], id)
      + if !last.BalanceChanged? && last.transactionID == id then [last] else []
  }

  /** A parked transaction was announced as parked; an ended one as what it is, after having waited or at once. */
  predicate Story(evs: seq<Event>, t: Tx) {
    if t.status.PendingReference? then |evs| == 1 && TellsWaiting(evs[0], t.ident)
    else
      || (|evs| == 1 && Tells(evs[0], t))
      || (|evs| == 2 && RequiresReference(t.ident.kind) && TellsWaiting(evs[0], t.ident) && Tells(evs[1], t))
  }

  ghost predicate Announced(w: World) {
    && (forall id :: id in w.txs ==> Story(StatusEventsOf(w.outbox, id), w.txs[id].tx))
    && (forall i :: 0 <= i < |w.outbox| ==> w.outbox[i].event.transactionID in w.txs)
  }

  lemma StatusEventsOfAppend(outbox: seq<OutboxRecord>, rec: OutboxRecord, id: Id)
    ensures StatusEventsOf(outbox + [rec], id) ==
            if !rec.event.BalanceChanged? && rec.event.transactionID == id
            then StatusEventsOf(outbox, id) + [rec.event] else StatusEventsOf(outbox, id)
  {
    assert (outbox + [rec])[..|outbox|] == outbox;
  }

  lemma {:induction false} NoStatusEvents(outbox: seq<OutboxRecord>, id: Id)
    requires forall i :: 0 <= i < |outbox| ==> outbox[i].event.transactionID != id
    ensures StatusEventsOf(outbox, id) == []
  {
    if outbox != [] {
      NoStatusEvents(outbox[..|outbox| - 1], id);
    }
  }

  /** A step that wrote `t` appended one status event, which tells of `t`. */
  ghost predicate Reported(w: World, w': World, t: Tx) {
    && Told(w, w', t)
    && forall id :: StatusEventsOf(w'.outbox, id) ==
                    StatusEventsOf(w.outbox, id) + if id == t.ident.id then [w'.outbox[|w.outbox|].event] else []
  }

  predicate NamesOnly(w: World, w': World, id: Id) {
    |w.outbox| <= |w'.outbox| && w'.outbox[..|w.outbox|] == w.outbox
    && forall i :: |w.outbox| <= i < |w'.outbox| ==> w'.outbox[i].event.transactionID == id
  }

  lemma NoteReports(w: World, w': World, t: Tx)
    requires AnnouncedNote(w, w') && Told(w, w', t)
    ensures Reported(w, w', t) && NamesOnly(w, w', t.ident.id)
  {
    var rec := w'.outbox[|w.outbox|];
    assert w'.outbox == w.outbox + [rec];
    forall id
      ensures StatusEventsOf(w'.outbox, id) ==
              StatusEventsOf(w.outbox, id) + if id == t.ident.id then [rec.event] else []
    {
      StatusEventsOfAppend(w.outbox, rec, id);
    }
  }

  lemma MoveReports(w: World, w': World, t: Tx, e: Ledger.Entry, version: int64)
    requires AnnouncedMove(w, w', e, version) && Told(w, w', t) && e.transactionID == t.ident.id
    ensures Reported(w, w', t) && NamesOnly(w, w', t.ident.id)
  {
    var n := |w.outbox|;
    var first, second := w'.outbox[n], w'.outbox[n + 1];
    assert w'.outbox == w.outbox + [first] + [second];
    forall id
      ensures StatusEventsOf(w'.outbox, id) ==
              StatusEventsOf(w.outbox, id) + if id == t.ident.id then [first.event] else []
    {
      StatusEventsOfAppend(w.outbox, first, id);
      StatusEventsOfAppend(w.outbox + [first], second, id);
    }
  }

  lemma EventsNameRows(w: World, w': World, t: Tx)
    requires Announced(w) && NamesOnly(w, w', t.ident.id) && Wrote(w.txs, w'.txs, t)
    ensures forall i :: 0 <= i < |w'.outbox| ==> w'.outbox[i].event.transactionID in w'.txs
  {
    hide Story, StatusEventsOf;
    forall i | 0 <= i < |w'.outbox|
      ensures w'.outbox[i].event.transactionID in w'.txs
    {
      if i < |w.outbox| {
        assert w'.outbox[i] == w'.outbox[..|w.outbox|][i] == w.outbox[i];
      }
    }
  }

  /** The story goes on: the written row was new, or parked and has now ended. */
  lemma StoryGoesOn(w: World, w': World, t: Tx)
    requires Sound(w) && Announced(w) && Reported(w, w', t) && NamesOnly(w, w', t.ident.id) && Wrote(w.txs, w'.txs, t)
    requires t.ident.id in w.txs ==>
               w.txs[t.ident.id].tx.status.PendingReference? && w.txs[t.ident.id].tx.ident == t.ident
               && IsTerminal(t.status)
    ensures Announced(w')
  {
    hide Sound, TellsWaiting, StatusEventsOf;
    var id := t.ident.id;
    if id in w.txs {
      ParkedIsOpen(w, id);
    } else {
      NoStatusEvents(w.outbox, id);
    }
    EventsNameRows(w, w', t);
    forall j | j in w'.txs
      ensures Story(StatusEventsOf(w'.outbox, j), w'.txs[j].tx)
    {
      assert StatusEventsOf(w'.outbox, j) ==
             StatusEventsOf(w.outbox, j) + if j == id then [w'.outbox[|w.outbox|].event] else [];
    }
  }

  lemma AnnouncedPreserved(w: World, w': World, c: Change)
    requires Sound(w) && Announced(w) && Alters(w, w', c)
    ensures Announced(w')
  {
    hide Sound, Announced, Wrote, Told, AnnouncedMove, AnnouncedNote, Carried, SawBalance, Unmoved;
    match c
    case Noted(t) =>
      NoteReports(w, w', t);
      FreshOrParked(w, t.ident);
      StoryGoesOn(w, w', t);
    case Booked(b) =>
      EntryNamesTransaction(w, b);
      MoveReports(w, w', b.tx, b.entry, b.version);
      FreshOrParked(w, b.tx.ident);
      StoryGoesOn(w, w', b.tx);
    case Credited(row, t, e) =>
      MoveReports(w, w', t, e, 1);
      UnusedIdentifier(w, t.ident.id);
      StoryGoesOn(w, w', t);
    case Rescheduled(id) => SameStories(w, w');
    case _ => SameStories(w, w');
  }

  lemma SameStories(w: World, w': World)
    requires Announced(w) && w'.outbox == w.outbox && w'.txs.Keys == w.txs.Keys
    requires forall id :: id in w.txs ==> w'.txs[id].tx == w.txs[id].tx
    ensures Announced(w')
  {
  }

  lemma EntryNamesTransaction(w: World, b: Booking)
    requires b.tx.ident.walletID in w.wallets && Carried(w.wallets[b.tx.ident.walletID], b)
    ensures b.entry.transactionID == b.tx.ident.id
  {
  }

  lemma FreshOrParked(w: World, p: Ident)
    requires Sound(w) && Writable(w, p)
    ensures p.id in w.txs ==> w.txs[p.id].tx.status.PendingReference? && w.txs[p.id].tx.ident == p
  {
    hide UniqueKeys, RowSound;
  }

  lemma {:induction false} RunIsAnnounced(policy: RetryPolicy, steps: seq<Step>)
    ensures Announced(Run(policy, steps))
  {
    if steps != [] {
      var w := Run(policy, steps[..|steps| - 1]);
      RunIsAnnounced(policy, steps[..|steps| - 1]);
      RunIsSound(policy, steps[..|steps| - 1]);
      StepChanges(w, policy, steps[|steps| - 1]);
      hide Announced, Sound, Alters, After;
      var c :| Changes(w, Run(policy, steps), c);
      AnnouncedPreserved(w, Run(policy, steps), c);
    }
  }

  /**
   * At any point of a run, the outbox tells the story of every stored transaction: a parked one was announced as
   * parked and as nothing else; an ended one has exactly one final event, of the right kind and with its identity,
   * failure code or resulting balance and time, preceded by a parked event only if it is a reversal that waited.
   */
  lemma OutboxTellsTheStory(policy: RetryPolicy, steps: seq<Step>, id: Id)
    requires id in Run(policy, steps).txs
    ensures var w := Run(policy, steps); Story(StatusEventsOf(w.outbox, id), w.txs[id].tx)
  {
    hide Run, Story;
    RunIsAnnounced(policy, steps);
  }

  // ---- resulting balances ----

  ghost predicate JustProcessed(w: World, w': World, id: Id) {
    id in w'.txs && w'.txs[id].tx.status.Processed? && !(id in w.txs && w.txs[id].tx.status.Processed?)
  }

  predicate RecordsBalance(w: World, t: Tx) {
    && t.resulting.Some? && t.ident.walletID in w.wallets
    && t.resulting.value.minorUnits == w.wallets[t.ident.walletID].balance.minorUnits
  }

  lemma AlterationRecords(w: World, w': World, c: Change, id: Id)
    requires Sound(w) && Alters(w, w', c) && JustProcessed(w, w', id)
    ensures RecordsBalance(w', w'.txs[id].tx)
  {
    hide UniqueKeys, RowSound, AnnouncedMove, AnnouncedNote, Told, Writable, Unmoved;
  }

  /**
   * The balance a transaction records when it is processed, in whatever way, is its wallet's balance right after
   * that step, and it keeps it for the rest of the run.
   */
  lemma ResultingBalanceIsTrue(policy: RetryPolicy, steps: seq<Step>, n: nat, id: Id)
    requires n < |steps| && JustProcessed(Run(policy, steps[..n]), Run(policy, steps[..n + 1]), id)
    ensures id in Run(policy, steps).txs
            && RecordsBalance(Run(policy, steps[..n + 1]), Run(policy, steps).txs[id].tx)
  {
    hide Run, Sound, Changes, After, RecordsBalance;
    var w := Run(policy, steps[..n]);
    RunIsSound(policy, steps[..n]);
    StepChanges(w, policy, steps[n]);
    assert steps[..n + 1] == steps[..n] + [steps[n]];
    RunAppends(policy, steps[..n], steps[n]);
    var w' := Run(policy, steps[..n + 1]);
    var c :| Changes(w, w', c);
    ChangeRecords(w, w', c, id);
    RunKeepsRows(policy, steps, n + 1);
  }

  lemma ChangeRecords(w: World, w': World, c: Change, id: Id)
    requires Sound(w) && Changes(w, w', c) && JustProcessed(w, w', id)
    ensures RecordsBalance(w', w'.txs[id].tx)
  {
    hide Sound, Alters, RecordsBalance;
    AlterationRecords(w, w', c, id);
  }

  /** The balance in an event, currency included, is its wallet's. */
  predicate TruthfulOf(w: World, e: Event) {
    match e
    case TransactionProcessed(_, _, _, walletID, _, _, _, resulting, _) =>
      walletID in w.wallets && resulting == Some(w.wallets[walletID].balance)
    case BalanceChanged(walletID, _, _, _, _, after, version) =>
      walletID in w.wallets && after == w.wallets[walletID].balance && version == w.wallets[walletID].version
    case _ => true
  }

  lemma AlterationIsTruthful(w: World, w': World, c: Change, i: nat)
    requires Sound(w) && Alters(w, w', c) && |w.outbox| <= i < |w'.outbox|
    ensures TruthfulOf(w', w'.outbox[i].event)
  {
    hide Writable, Wrote, Unowned, Unscheduled, UniqueKeys, RowSound;
  }

  /** Every event a step of a run publishes tells the balance and the version its wallet has right after that step. */
  lemma EventBalancesAreTrue(policy: RetryPolicy, steps: seq<Step>, step: Step, i: nat)
    requires |Run(policy, steps).outbox| <= i < |Run(policy, steps + [step]).outbox|
    ensures var w' := Run(policy, steps + [step]); TruthfulOf(w', w'.outbox[i].event)
  {
    hide Run, Sound, Alters, After, TruthfulOf;
    var w := Run(policy, steps);
    RunIsSound(policy, steps);
    StepChanges(w, policy, step);
    RunAppends(policy, steps, step);
    var c :| Changes(w, Run(policy, steps + [step]), c);
    AlterationIsTruthful(w, Run(policy, steps + [step]), c, i);
  }
}
