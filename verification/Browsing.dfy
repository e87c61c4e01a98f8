/** The ledgers that runs produce are the ones that can be paged through. */
module Browsing {
  import opened Prelude
  import opened Int64
  import opened MoneyDomain
  import opened WalletDomain
  import opened WagerDomain
  import opened Store
  import opened Engine
  import opened Runs
  import opened References
  import opened Balances
  import opened Pagination
  import opened Ordering
  import Ledger = LedgerDomain

  /** Entries use up identifiers, each its own. */
  ghost predicate Numbered(w: World) {
    && (forall i :: 0 <= i < |w.ledger| ==> 1 <= w.ledger[i].id < w.next)
    && (forall i, j :: 0 <= i < j < |w.ledger| ==> w.ledger[i].id != w.ledger[j].id)
  }

  lemma NumberedPreserved(w: World, w': World, c: Change)
    requires Sound(w) && Numbered(w) && Alters(w, w', c)
    ensures Numbered(w') && w.ledger <= w'.ledger
  {
    hide UniqueKeys, RowSound, Wrote, Writable, AnnouncedMove, AnnouncedNote, Carried, KeyedByID;
    AlterationRewrites(w, w', c);
    SupplyRises(w, w', c);
  }

  lemma {:induction false} RunIsNumbered(policy: RetryPolicy, steps: seq<Step>)
    ensures Numbered(Run(policy, steps))
    ensures steps != [] ==> Run(policy, steps[..|steps| - 1]).ledger <= Run(policy, steps).ledger
  {
    if steps != [] {
      var w := Run(policy, steps[..|steps| - 1]);
      RunIsNumbered(policy, steps[..|steps| - 1]);
      RunIsSound(policy, steps[..|steps| - 1]);
      StepChanges(w, policy, steps[|steps| - 1]);
      hide Numbered, Sound, Alters, After;
      var c :| Changes(w, Run(policy, steps), c);
      NumberedPreserved(w, Run(policy, steps), c);
    }
  }

  lemma {:induction false} LedgerGrows(policy: RetryPolicy, steps: seq<Step>, n: nat)
    requires n <= |steps|
    ensures Run(policy, steps[..n]).ledger <= Run(policy, steps).ledger
    decreases |steps|
  {
    hide Run;
    if n < |steps| {
      var m := |steps| - 1;
      assert steps[..m][..n] == steps[..n];
      LedgerGrows(policy, steps[..m], n);
      RunIsNumbered(policy, steps);
    } else {
      assert steps[..n] == steps;
    }
  }

  lemma {:induction false} EntryIsListed(ledger: seq<Ledger.Entry>, e: Ledger.Entry)
    requires e in ledger
    ensures e in EntriesOf(ledger, e.walletID)
  {
    var m := |ledger| - 1;
    assert ledger == ledger[..m] + [ledger[m]];
    if e in ledger[..m] {
      EntryIsListed(ledger[..m], e);
    }
  }

  lemma EntryIsNamed(w: World, i: nat)
    requires Sound(w) && Balanced(w) && Consistent(w) && Numbered(w) && i < |w.ledger|
    ensures var e := w.ledger[i]; e.id != NIL && e.walletID != NIL && e.transactionID != NIL && e.walletID in w.wallets
  {
    hide UniqueKeys, RowSound, Matched, ReversedOnce, History, EntriesOf, EventsOf, MovedMoney;
    assert Books(w.txs, w.ledger[i]);
  }

  lemma HistoryHasCurrency(txs: map<Id, TxRow>, es: seq<Ledger.Entry>, evs: seq<Event>, row: WalletRow, e: Ledger.Entry)
    requires History(txs, es, evs, row) && e in es
    ensures e.before.currency == e.money.currency == e.after.currency
  {
    var k :| 0 <= k < |es| && es[k] == e;
    assert SoundEntry(es[k], row.balance.currency);
  }

  lemma EntryReadsBack(w: World, i: nat)
    requires Sound(w) && Balanced(w) && Consistent(w) && Numbered(w) && i < |w.ledger|
    ensures Rehydrate(w.ledger[i]) == Ok(w.ledger[i])
  {
    hide Sound, Consistent, Numbered, History, EntriesOf, EventsOf;
    var e := w.ledger[i];
    EntryIsNamed(w, i);
    EntryIsListed(w.ledger, e);
    var es, evs := EntriesOf(w.ledger, e.walletID), EventsOf(w.outbox, e.walletID);
    HistoryHasCurrency(w.txs, es, evs, w.wallets[e.walletID], e);
  }

  /** Times have four-digit years, identifiers 128 bits. */
  ghost predicate Printable(codec: Codec, ledger: seq<Ledger.Entry>) {
    forall i :: 0 <= i < |ledger| ==> codec.inEra(ledger[i].createdAt) && codec.isUUID(ledger[i].id)
  }

  /**
   * Paging through a wallet while a run goes on: request i is made after the first `at[i]` steps. Whatever the
   * limits, short of the largest int64, no entry comes twice, the order is (created_at, id), and a reader that
   * comes to the end has seen all the entries that were there at the first request.
   */
  lemma PagingDuringARun(codec: Codec, policy: RetryPolicy, steps: seq<Step>, walletID: Id, at: seq<nat>,
                         limits: seq<int64>, visits: seq<Visit>)
    requires codec.Lawful() && |at| == |limits| == |visits|
    requires forall i :: 0 <= i < |at| ==> at[i] <= |steps| && limits[i] != MAX
                                           && visits[i] == Visit(Run(policy, steps[..at[i]]).ledger, limits[i])
    requires forall i, j :: 0 <= i < j < |at| ==> at[i] <= at[j]
    requires Printable(codec, Run(policy, steps).ledger)
    ensures var r := Read(codec, walletID, "", visits);
            r.Ok? &&
            var es := Flatten(r.value.0);
            && Chronological(es)
            && (forall i :: 0 <= i < |es| ==> es[i] in Run(policy, steps).ledger && es[i].walletID == walletID)
            && (visits != [] && r.value.1 == "" ==>
                  forall e :: e in Run(policy, steps[..at[0]]).ledger && e.walletID == walletID ==> e in es)
  {
    hide Run, Read, Listable, Flatten;
    forall i | 0 <= i < |visits|
      ensures Listable(codec, visits[i].ledger) && Effective(visits[i].limit) < MAX
    {
      LedgerGrows(policy, steps, at[i]);
      RunIsListable(codec, policy, steps[..at[i]]);
    }
    forall i, j | 0 <= i < j < |visits|
      ensures visits[i].ledger <= visits[j].ledger
    {
      assert steps[..at[j]][..at[i]] == steps[..at[i]];
      LedgerGrows(policy, steps[..at[j]], at[i]);
    }
    ReadingIsComplete(codec, walletID, visits);
    var es := Flatten(Read(codec, walletID, "", visits).value.0);
    forall i | 0 <= i < |es|
      ensures es[i] in Run(policy, steps).ledger && es[i].walletID == walletID
    {
      assert Offered(visits, walletID, None, es[i]);
      var v :| 0 <= v < |visits| && Wanted(visits[v].ledger, walletID, None, es[i]);
      LedgerGrows(policy, steps, at[v]);
    }
  }

  lemma RunIsListable(codec: Codec, policy: RetryPolicy, steps: seq<Step>)
    requires Printable(codec, Run(policy, steps).ledger)
    ensures Listable(codec, Run(policy, steps).ledger)
  {
    hide Run, Sound, Balanced, Consistent;
    var w := Run(policy, steps);
    RunIsNumbered(policy, steps);
    RunIsSound(policy, steps);
    RunIsBalanced(policy, steps);
    RunIsConsistent(policy, steps);
    forall i | 0 <= i < |w.ledger|
      ensures Rehydrate(w.ledger[i]) == Ok(w.ledger[i])
    {
      EntryReadsBack(w, i);
    }
  }
}
