/**
 * The service with its outbox worker: use cases and polls in any order, publishes and statements failing as they
 * like. What is promised of every event, and what the worker leaves alone.
 */
module Delivery {
  import opened Prelude
  import opened Int64
  import opened MoneyDomain
  import opened WalletDomain
  import opened WagerDomain
  import opened Store
  import opened Engine
  import opened Runs
  import opened Balances
  import opened References
  import opened Conservation
  import opened Backoff
  import opened Ordering
  import opened Outbox
  import Ledger = LedgerDomain

  /** A use case commits, the worker begins a poll with a claim, or it handles the next record it has claimed. */
  datatype Turn = Work(step: Step) | Begin(now: Time, batch: nat) | Handle(fate: Fate)

  /** The tables, every publish ever attempted, and what the worker still has in hand, claimed at `now`. */
  datatype Service = Service(world: World, log: seq<Attempted>, claimed: seq<OutboxRecord>, now: Time)

  /** The worker handles the first record it holds; a failed statement ends its poll. */
  ghost function HandledOne(s: Service, backoff: BackoffPolicy, fate: Fate): Service
    requires s.claimed != []
  {
    var rec := s.claimed[0];
    Service(s.world.(outbox := Handled(s.world.outbox, rec, s.now, backoff, fate)), s.log + [Attempted(rec.id, fate)],
            if fate.written then s.claimed[1..] else [], s.now)
  }

  /** A new poll drops what was left of the old one, as after a crash. */
  ghost function Next(s: Service, policy: RetryPolicy, backoff: BackoffPolicy, turn: Turn): Service {
    match turn
    case Work(step) => s.(world := After(s.world, policy, step))
    case Begin(now, batch) => s.(claimed := Claim(s.world.outbox, now, batch), now := now)
    case Handle(fate) =>
      if s.claimed == [] then s else HandledOne(s, backoff, fate)
  }

  ghost function Serve(policy: RetryPolicy, backoff: BackoffPolicy, turns: seq<Turn>): Service {
    if turns == [] then Service(EMPTY, [], [], 0)
    else Next(Serve(policy, backoff, turns[..|turns| - 1]), policy, backoff, turns[|turns| - 1])
  }

  // ---- bookkeeping of one record ----

  /** How often this happened to the event. */
  function Times(log: seq<Attempted>, id: Id, confirmed: bool, written: bool): nat {
    multiset(log)[Attempted(id, Fate(confirmed, written))]
  }

  /**
   * Attempts counts the failed publishes that were recorded, and the event is marked published exactly when one
   * confirmed publish was recorded; never two.
   */
  predicate Accounted(rec: OutboxRecord, log: seq<Attempted>) {
    && rec.attempts == Times(log, rec.id, false, true)
    && Times(log, rec.id, true, true) == if rec.publishedAt.Some? then 1 else 0
  }

  ghost predicate DistinctIDs(table: seq<OutboxRecord>) {
    forall i, j :: 0 <= i < j < |table| ==> table[i].id != table[j].id
  }

  ghost predicate Tracked(table: seq<OutboxRecord>, log: seq<Attempted>, next: Id) {
    && DistinctIDs(table)
    && (forall i :: 0 <= i < |table| ==> table[i].id < next && Accounted(table[i], log))
    && (forall a :: a in log ==> a.id < next)
  }

  /** The event itself never changes, attempts never fall, and a published record is final. */
  predicate SameEvent(before: OutboxRecord, after: OutboxRecord) {
    && after.id == before.id && after.event == before.event && after.occurredAt == before.occurredAt
    && after.attempts >= before.attempts
    && (before.publishedAt.Some? ==> after == before)
  }

  ghost predicate Kept(table: seq<OutboxRecord>, table': seq<OutboxRecord>) {
    |table| <= |table'| && forall i :: 0 <= i < |table| ==> SameEvent(table[i], table'[i])
  }

  lemma HandledTracks(table: seq<OutboxRecord>, log: seq<Attempted>, next: Id, rec: OutboxRecord, now: Time,
                      policy: BackoffPolicy, fate: Fate)
    requires Tracked(table, log, next) && rec in table && rec.publishedAt.None?
    ensures var table' := Handled(table, rec, now, policy, fate);
            && Tracked(table', log + [Attempted(rec.id, fate)], next) && Kept(table, table') && |table'| == |table|
            && forall r :: r in table && r.id != rec.id ==> r in table'
  {
    hide DelayAfter;
    var table' := Handled(table, rec, now, policy, fate);
    var log' := log + [Attempted(rec.id, fate)];
    var k :| 0 <= k < |table| && table[k] == rec;
    forall i | 0 <= i < |table|
      ensures table'[i].id == table[i].id && SameEvent(table[i], table'[i]) && Accounted(table'[i], log')
      ensures i != k ==> table'[i] == table[i]
    {
      assert i != k ==> table[i].id != rec.id;
    }
    forall r | r in table && r.id != rec.id
      ensures r in table'
    {
      var i :| 0 <= i < |table| && table[i] == r;
      assert table'[i] == r;
    }
  }

  /** The records of a claim: rows of the table, unpublished, each once. */
  ghost predicate Claimed(table: seq<OutboxRecord>, recs: seq<OutboxRecord>) {
    && (forall i :: 0 <= i < |recs| ==> recs[i] in table && recs[i].publishedAt.None?)
    && DistinctIDs(recs)
  }

  // ---- what a claim returns ----

  predicate DueBefore(a: OutboxRecord, b: OutboxRecord) {
    a.nextAttempt < b.nextAttempt || (a.nextAttempt == b.nextAttempt && a.id < b.id)
  }

  lemma {:induction false} UnpublishedHas(table: seq<OutboxRecord>, now: Time, rec: OutboxRecord)
    ensures rec in Unpublished(table, now) <==> rec in table && Claimable(rec, now)
  {
    if table != [] {
      var m := |table| - 1;
      assert table == table[..m] + [table[m]];
      UnpublishedHas(table[..m], now, rec);
    }
  }

  lemma {:induction false} UnpublishedDistinct(table: seq<OutboxRecord>, now: Time)
    requires DistinctIDs(table)
    ensures DistinctKeys(Unpublished(table, now), DueKey)
  {
    if table != [] {
      var m := |table| - 1;
      var before := Unpublished(table[..m], now);
      UnpublishedDistinct(table[..m], now);
      forall i | 0 <= i < |before|
        ensures before[i].id != table[m].id
      {
        UnpublishedHas(table[..m], now, before[i]);
      }
    }
  }

  /**
   * A claim holds due, unpublished records, each once, in (next_attempt, event_id) order; it leaves one out only when
   * it is full, and then everything it holds comes first.
   */
  lemma ClaimIsExact(table: seq<OutboxRecord>, now: Time, limit: nat)
    requires DistinctIDs(table)
    ensures var recs := Claim(table, now, limit);
            && |recs| <= limit && Claimed(table, recs)
            && (forall i, j :: 0 <= i < j < |recs| ==> DueBefore(recs[i], recs[j]))
            && (forall i :: 0 <= i < |recs| ==> recs[i].publishedAt.None? && recs[i].nextAttempt <= now)
            && (forall r :: r in table && r.publishedAt.None? && r.nextAttempt <= now && r !in recs ==>
                  |recs| == limit && forall i :: 0 <= i < |recs| ==> DueBefore(recs[i], r))
  {
    hide SortBy, Unpublished;
    var all := SortBy(Unpublished(table, now), DueKey);
    UnpublishedDistinct(table, now);
    SortBySorts(Unpublished(table, now), DueKey);
    forall r
      ensures r in all <==> r in table && Claimable(r, now)
    {
      UnpublishedHas(table, now, r);
      SortHasSame(Unpublished(table, now), DueKey, r);
    }
    var recs := Claim(table, now, limit);
    forall i | 0 <= i < |recs|
      ensures recs[i] in table && Claimable(recs[i], now)
    {
      assert recs[i] in all;
    }
    DistinctClaims(table, recs);
    forall r | r in table && Claimable(r, now) && r !in recs
      ensures |recs| == limit && forall i :: 0 <= i < |recs| ==> Before(DueKey(recs[i]), DueKey(r))
    {
      var j :| 0 <= j < |all| && all[j] == r;
      assert j >= |recs|;
    }
  }

  lemma DistinctClaims(table: seq<OutboxRecord>, recs: seq<OutboxRecord>)
    requires DistinctIDs(table) && Ascending(recs, DueKey)
    requires forall i :: 0 <= i < |recs| ==> recs[i] in table
    ensures DistinctIDs(recs)
  {
    forall i, j | 0 <= i < j < |recs|
      ensures recs[i].id != recs[j].id
    {
      assert Before(DueKey(recs[i]), DueKey(recs[j]));
      var a :| 0 <= a < |table| && table[a] == recs[i];
      var b :| 0 <= b < |table| && table[b] == recs[j];
    }
  }

  // ---- runs ----

  /** What use cases append is new and unattempted. */
  predicate Appended(table: seq<OutboxRecord>, table': seq<OutboxRecord>, next: Id, next': Id) {
    && next <= next' && table <= table'
    && (forall i :: |table| <= i < |table'| ==> Unscheduled(table'[i]) && next <= table'[i].id < next')
    && (forall i, j :: |table| <= i < j < |table'| ==> table'[i].id != table'[j].id)
  }

  lemma WorkAppends(w: World, w': World, c: Change)
    requires Alters(w, w', c)
    ensures Appended(w.outbox, w'.outbox, w.next, w'.next)
  {
    hide Wrote, Writable, Carried, Unmoved;
    assert w'.outbox[..|w.outbox|] == w.outbox;
  }

  lemma AppendedTracks(table: seq<OutboxRecord>, table': seq<OutboxRecord>, log: seq<Attempted>, next: Id, next': Id)
    requires Tracked(table, log, next) && Appended(table, table', next, next')
    ensures Tracked(table', log, next') && Kept(table, table')
  {
    forall i | 0 <= i < |table'|
      ensures table'[i].id < next' && Accounted(table'[i], log)
      ensures i < |table| ==> table'[i] == table[i]
    {
      if i >= |table| {
        assert Attempted(table'[i].id, Fate(false, true)) !in log && Attempted(table'[i].id, Fate(true, true)) !in log;
      }
    }
  }

  /** The worker changes delivery columns only, and no invariant of the tables looks at those. */
  ghost predicate Served(s: Service) {
    && Sound(s.world) && Balanced(s.world) && EventsKnown(s.world) && Consistent(s.world) && Conserved(s.world)
    && Tracked(s.world.outbox, s.log, s.world.next) && Claimed(s.world.outbox, s.claimed)
  }

  lemma {:induction false} SameEvents(table: seq<OutboxRecord>, table': seq<OutboxRecord>, walletID: Id)
    requires |table'| == |table| && Kept(table, table')
    ensures EventsOf(table', walletID) == EventsOf(table, walletID)
  {
    if table != [] {
      var m := |table| - 1;
      SameEvents(table[..m], table'[..m], walletID);
      assert SameEvent(table[m], table'[m]);
    }
  }

  lemma DeliveryKeeps(w: World, w': World)
    requires Sound(w) && Balanced(w) && EventsKnown(w) && Consistent(w) && Conserved(w)
    requires w' == w.(outbox := w'.outbox) && |w'.outbox| == |w.outbox| && Kept(w.outbox, w'.outbox)
    ensures Sound(w') && Balanced(w') && EventsKnown(w') && Consistent(w') && Conserved(w')
  {
    hide UniqueKeys, RowSound, KeyedByID, History, EntriesOf, EventsOf, TotalWorth, Matched, ReversedOnce, Booked1to1;
    forall id | id in w'.wallets
      ensures History(w'.txs, EntriesOf(w'.ledger, id), EventsOf(w'.outbox, id), w'.wallets[id])
    {
      SameEvents(w.outbox, w'.outbox, id);
    }
    forall i | 0 <= i < |w'.outbox| && w'.outbox[i].event.BalanceChanged?
      ensures w'.outbox[i].event.walletID in w'.wallets
    {
      assert SameEvent(w.outbox[i], w'.outbox[i]);
    }
  }

  lemma {:induction false} DrainKeepsLength(table: seq<OutboxRecord>, recs: seq<OutboxRecord>, now: Time,
                                            policy: BackoffPolicy, fates: Id -> Fate)
    ensures |Drain(table, recs, now, policy, fates).table| == |table|
    decreases |recs|
  {
    if recs != [] {
      DrainKeepsLength(Handled(table, recs[0], now, policy, fates(recs[0].id)), recs[1..], now, policy, fates);
    }
  }

  lemma BeginKeeps(s: Service, policy: RetryPolicy, backoff: BackoffPolicy, now: Time, batch: nat)
    requires Served(s)
    ensures Served(Next(s, policy, backoff, Begin(now, batch)))
  {
    hide Sound, Balanced, EventsKnown, Consistent, Conserved, Claim, Accounted;
    ClaimIsExact(s.world.outbox, now, batch);
  }

  lemma HandleKeeps(s: Service, policy: RetryPolicy, backoff: BackoffPolicy, fate: Fate)
    requires Served(s)
    ensures var s' := Next(s, policy, backoff, Handle(fate));
            Served(s') && Kept(s.world.outbox, s'.world.outbox)
  {
    hide Sound, Balanced, EventsKnown, Consistent, Conserved, Handled, Tracked;
    if s.claimed == [] {
      KeptSelf(s.world.outbox);
    } else {
      var s' := Next(s, policy, backoff, Handle(fate));
      HandledTracks(s.world.outbox, s.log, s.world.next, s.claimed[0], s.now, backoff, fate);
      DeliveryKeeps(s.world, s'.world);
    }
  }

  lemma WorkKeeps(s: Service, policy: RetryPolicy, backoff: BackoffPolicy, step: Step)
    requires Served(s)
    ensures var s' := Next(s, policy, backoff, Work(step));
            Served(s') && Kept(s.world.outbox, s'.world.outbox)
  {
    hide Sound, Balanced, EventsKnown, Consistent, Conserved, After, Alters, Tracked, Justified, Claimed;
    var w, w' := s.world, After(s.world, policy, step);
    StepChanges(w, policy, step);
    var c :| Changes(w, w', c);
    SoundPreserved(w, w', c);
    BalancedPreserved(w, w', c);
    EventsKnownPreserved(w, w', c);
    ConsistentPreserved(w, w', c);
    ConservedPreserved(w, w', c);
    WorkAppends(w, w', c);
    AppendedTracks(w.outbox, w'.outbox, s.log, w.next, w'.next);
    ClaimStands(w.outbox, w'.outbox, s.claimed);
  }

  lemma ClaimStands(table: seq<OutboxRecord>, table': seq<OutboxRecord>, recs: seq<OutboxRecord>)
    requires Claimed(table, recs) && table <= table'
    ensures Claimed(table', recs)
  {
    forall i | 0 <= i < |recs|
      ensures recs[i] in table'
    {
      var k :| 0 <= k < |table| && table[k] == recs[i];
      assert table'[k] == recs[i];
    }
  }

  lemma TurnKeeps(s: Service, policy: RetryPolicy, backoff: BackoffPolicy, turn: Turn)
    requires Served(s)
    ensures Served(Next(s, policy, backoff, turn)) && Kept(s.world.outbox, Next(s, policy, backoff, turn).world.outbox)
  {
    hide Served, Next, Kept;
    match turn
    case Work(step) => WorkKeeps(s, policy, backoff, step);
    case Begin(now, batch) =>
      BeginKeeps(s, policy, backoff, now, batch);
      BeginLeavesTables(s, policy, backoff, now, batch);
    case Handle(fate) => HandleKeeps(s, policy, backoff, fate);
  }

  lemma BeginLeavesTables(s: Service, policy: RetryPolicy, backoff: BackoffPolicy, now: Time, batch: nat)
    ensures var s' := Next(s, policy, backoff, Begin(now, batch));
            s'.world == s.world && Kept(s.world.outbox, s'.world.outbox)
  {
    KeptSelf(s.world.outbox);
  }

  lemma {:induction false} ServiceKeeps(policy: RetryPolicy, backoff: BackoffPolicy, turns: seq<Turn>)
    ensures Served(Serve(policy, backoff, turns))
  {
    hide Next;
    if turns != [] {
      ServiceKeeps(policy, backoff, turns[..|turns| - 1]);
      hide Served;
      TurnKeeps(Serve(policy, backoff, turns[..|turns| - 1]), policy, backoff, turns[|turns| - 1]);
    }
  }

  lemma KeptTwice(a: seq<OutboxRecord>, b: seq<OutboxRecord>, c: seq<OutboxRecord>)
    requires Kept(a, b) && Kept(b, c)
    ensures Kept(a, c)
  {
    forall i | 0 <= i < |a|
      ensures SameEvent(a[i], c[i])
    {
      assert SameEvent(a[i], b[i]) && SameEvent(b[i], c[i]);
    }
  }

  /** No event is lost: what was in the outbox is still there, as the same event, and final once published. */
  lemma {:induction false} NoEventIsLost(policy: RetryPolicy, backoff: BackoffPolicy, turns: seq<Turn>, n: nat)
    requires n <= |turns|
    ensures Kept(Serve(policy, backoff, turns[..n]).world.outbox, Serve(policy, backoff, turns).world.outbox)
    decreases |turns|
  {
    hide Next, Served, Kept;
    if n < |turns| {
      var m := |turns| - 1;
      assert turns[..m][..n] == turns[..n];
      NoEventIsLost(policy, backoff, turns[..m], n);
      ServiceKeeps(policy, backoff, turns[..m]);
      TurnKeeps(Serve(policy, backoff, turns[..m]), policy, backoff, turns[m]);
      KeptTwice(Serve(policy, backoff, turns[..n]).world.outbox, Serve(policy, backoff, turns[..m]).world.outbox,
                Serve(policy, backoff, turns).world.outbox);
    } else {
      assert turns[..n] == turns;
      KeptSelf(Serve(policy, backoff, turns).world.outbox);
    }
  }

  lemma KeptSelf(table: seq<OutboxRecord>)
    ensures Kept(table, table)
  {
  }

  /**
   * Every event is accounted for at every moment: it counts as published only after a confirmed publish, its
   * attempts are its recorded failures, and every further confirmed publish is one whose mark was lost.
   */
  lemma EventsAreAccounted(policy: RetryPolicy, backoff: BackoffPolicy, turns: seq<Turn>, i: nat)
    requires i < |Serve(policy, backoff, turns).world.outbox|
    ensures var s := Serve(policy, backoff, turns);
            var rec := s.world.outbox[i];
            && (rec.publishedAt.Some? <==> Attempted(rec.id, Fate(true, true)) in s.log)
            && Times(s.log, rec.id, true, true) <= 1
            && rec.attempts == Times(s.log, rec.id, false, true)
  {
    hide Serve, Sound, Balanced, EventsKnown, Consistent, Conserved;
    ServiceKeeps(policy, backoff, turns);
    assert Accounted(Serve(policy, backoff, turns).world.outbox[i], Serve(policy, backoff, turns).log);
  }

  /** A published event is never claimed again and never in the worker's hands, so never sent again. */
  lemma PublishedIsNotClaimed(policy: RetryPolicy, backoff: BackoffPolicy, turns: seq<Turn>, n: nat, i: nat, now: Time,
                              batch: nat)
    requires n <= |turns| && i < |Serve(policy, backoff, turns[..n]).world.outbox|
    requires Serve(policy, backoff, turns[..n]).world.outbox[i].publishedAt.Some?
    ensures var id := Serve(policy, backoff, turns[..n]).world.outbox[i].id;
            var s := Serve(policy, backoff, turns);
            && (forall r :: r in Claim(s.world.outbox, now, batch) ==> r.id != id)
            && (forall r :: r in s.claimed ==> r.id != id)
  {
    hide Serve, Sound, Balanced, EventsKnown, Consistent, Conserved, Claim, Accounted;
    var s := Serve(policy, backoff, turns);
    NoEventIsLost(policy, backoff, turns, n);
    ServiceKeeps(policy, backoff, turns);
    ClaimIsExact(s.world.outbox, now, batch);
    assert SameEvent(Serve(policy, backoff, turns[..n]).world.outbox[i], s.world.outbox[i]);
    NotInHand(s.world.outbox, Claim(s.world.outbox, now, batch), i);
    NotInHand(s.world.outbox, s.claimed, i);
  }

  lemma NotInHand(table: seq<OutboxRecord>, recs: seq<OutboxRecord>, i: nat)
    requires DistinctIDs(table) && Claimed(table, recs) && i < |table| && table[i].publishedAt.Some?
    ensures forall r :: r in recs ==> r.id != table[i].id
  {
    forall r | r in recs
      ensures r.id != table[i].id
    {
      var k :| 0 <= k < |recs| && recs[k] == r;
      var j :| 0 <= j < |table| && table[j] == r;
    }
  }

  /** Publishing disturbs nothing: with polls in between, every wallet still adds up both ways. */
  lemma BooksHoldWhileServing(policy: RetryPolicy, backoff: BackoffPolicy, turns: seq<Turn>, id: Id)
    requires id in Serve(policy, backoff, turns).world.wallets
    ensures var w := Serve(policy, backoff, turns).world;
            && Explains(w.txs, EntriesOf(w.ledger, id), w.wallets[id])
            && w.wallets[id].balance.minorUnits == TotalWorth(w.txs, id, w.next)
  {
    hide Serve, EntriesOf, EventsOf, History, Explains, Sound, EventsKnown, Consistent, TotalWorth, Tracked;
    var w := Serve(policy, backoff, turns).world;
    ServiceKeeps(policy, backoff, turns);
    HistoryExplains(w.txs, EntriesOf(w.ledger, id), EventsOf(w.outbox, id), w.wallets[id]);
  }

  // ---- a poll is a stretch of turns ----

  /** The turns of a poll that nothing interrupts. */
  function Handling(recs: seq<OutboxRecord>, fates: Id -> Fate): seq<Turn>
    decreases |recs|
  {
    if recs == [] then []
    else
      var fate := fates(recs[0].id);
      [Handle(fate)] + if fate.written then Handling(recs[1..], fates) else []
  }

  lemma ServeNext(policy: RetryPolicy, backoff: BackoffPolicy, turns: seq<Turn>, turn: Turn)
    ensures Serve(policy, backoff, turns + [turn]) == Next(Serve(policy, backoff, turns), policy, backoff, turn)
  {
    hide Next;
    assert (turns + [turn])[..|turns|] == turns;
  }

  /** The worker's state after it has handled all it holds. */
  ghost function HandledAll(s: Service, backoff: BackoffPolicy, fates: Id -> Fate): Service {
    var done := Drain(s.world.outbox, s.claimed, s.now, backoff, fates);
    Service(s.world.(outbox := done.table), s.log + done.log, [], s.now)
  }

  /** Handling all is handling one, and then the rest. */
  lemma HandledInTurn(s: Service, backoff: BackoffPolicy, fates: Id -> Fate)
    ensures s.claimed == [] ==> HandledAll(s, backoff, fates) == s
    ensures s.claimed != [] ==>
              HandledAll(s, backoff, fates)
              == HandledAll(HandledOne(s, backoff, fates(s.claimed[0].id)), backoff, fates)
  {
    hide Handled;
    if s.claimed == [] {
      assert s.log + [] == s.log;
    } else {
      var rec, fate := s.claimed[0], fates(s.claimed[0].id);
      var one := HandledOne(s, backoff, fate);
      var rest := Drain(one.world.outbox, one.claimed, s.now, backoff, fates);
      assert s.log + ([Attempted(rec.id, fate)] + rest.log) == one.log + rest.log;
    }
  }

  lemma HandleIsOne(policy: RetryPolicy, backoff: BackoffPolicy, turns: seq<Turn>, fate: Fate)
    requires Serve(policy, backoff, turns).claimed != []
    ensures Serve(policy, backoff, turns + [Handle(fate)])
            == HandledOne(Serve(policy, backoff, turns), backoff, fate)
  {
    hide Serve, Handled;
    ServeNext(policy, backoff, turns, Handle(fate));
  }

  /** The worker's loop, uninterrupted, is one turn per record. */
  lemma {:induction false} LoopIsTurns(policy: RetryPolicy, backoff: BackoffPolicy, turns: seq<Turn>, fates: Id -> Fate)
    ensures var s := Serve(policy, backoff, turns);
            Serve(policy, backoff, turns + Handling(s.claimed, fates)) == HandledAll(s, backoff, fates)
    decreases |Serve(policy, backoff, turns).claimed|
  {
    hide Serve, HandledAll, Handled;
    var s := Serve(policy, backoff, turns);
    HandledInTurn(s, backoff, fates);
    if s.claimed == [] {
      assert turns + [] == turns;
    } else {
      var fate := fates(s.claimed[0].id);
      HandleIsOne(policy, backoff, turns, fate);
      LoopIsTurns(policy, backoff, turns + [Handle(fate)], fates);
      var rest := if fate.written then Handling(s.claimed[1..], fates) else [];
      assert turns + ([Handle(fate)] + rest) == turns + [Handle(fate)] + rest;
    }
  }

  /** What `RunOnce` does in one go is a claim and one turn per record, between which others may have their turns. */
  lemma PollIsTurns(policy: RetryPolicy, backoff: BackoffPolicy, turns: seq<Turn>, now: Time, batch: nat,
                    fates: Id -> Fate)
    ensures var s := Serve(policy, backoff, turns);
            var claimed := Claim(s.world.outbox, now, batch);
            var done := Drain(s.world.outbox, claimed, now, backoff, fates);
            Serve(policy, backoff, turns + [Begin(now, batch)] + Handling(claimed, fates))
            == Service(s.world.(outbox := done.table), s.log + done.log, [], now)
  {
    hide Serve, Drain, Claim, Handling, Handled;
    ServeNext(policy, backoff, turns, Begin(now, batch));
    LoopIsTurns(policy, backoff, turns + [Begin(now, batch)], fates);
  }

  /**
   * A poll attempts what it claimed in order, as the environment has it, up to the first record whose statement fails;
   * it reports failure exactly when there is one.
   */
  lemma {:induction false} PollStopsAtFailure(table: seq<OutboxRecord>, recs: seq<OutboxRecord>, now: Time,
                                              policy: BackoffPolicy, fates: Id -> Fate)
    ensures var done := Drain(table, recs, now, policy, fates);
            var n := |done.log|;
            && n <= |recs| && (forall i :: 0 <= i < n ==> done.log[i] == Attempted(recs[i].id, fates(recs[i].id)))
            && (forall i :: 0 <= i < n - 1 ==> fates(recs[i].id).written)
            && (if done.failed then n > 0 && !fates(recs[n - 1].id).written
                else n == |recs| && (n > 0 ==> fates(recs[n - 1].id).written))
    decreases |recs|
  {
    hide Handled;
    if recs != [] {
      PollStopsAtFailure(Handled(table, recs[0], now, policy, fates(recs[0].id)), recs[1..], now, policy, fates);
    }
  }

  // ---- a poll whose statements all succeed ----

  /** What a poll makes of a record it claimed: published, or one more attempt and a later date. */
  function AfterAttempt(rec: OutboxRecord, now: Time, policy: BackoffPolicy, confirmed: bool): OutboxRecord {
    if confirmed then rec.(publishedAt := Some(now))
    else rec.(attempts := rec.attempts + 1, nextAttempt := now + DelayAfter(policy, rec.attempts + 1))
  }

  lemma HandledRow(table: seq<OutboxRecord>, rec: OutboxRecord, now: Time, policy: BackoffPolicy, fate: Fate, i: nat)
    requires DistinctIDs(table) && rec in table && fate.written && i < |table|
    ensures var table' := Handled(table, rec, now, policy, fate);
            && |table'| == |table| && DistinctIDs(table')
            && table'[i].id == table[i].id
            && table'[i] == (if table[i].id == rec.id then AfterAttempt(table[i], now, policy, fate.confirmed)
                             else table[i])
  {
    hide DelayAfter;
    var k :| 0 <= k < |table| && table[k] == rec;
    assert table[i].id == rec.id ==> table[i] == rec;
  }

  lemma {:induction false} WrittenDrain(table: seq<OutboxRecord>, recs: seq<OutboxRecord>, now: Time,
                                        policy: BackoffPolicy, fates: Id -> Fate, i: nat)
    requires forall r :: r in recs ==> r in table && fates(r.id).written
    requires DistinctIDs(table) && DistinctIDs(recs) && i < |table|
    ensures var done := Drain(table, recs, now, policy, fates);
            && |done.table| == |table| && !done.failed
            && done.table[i] == if table[i] in recs
                                then AfterAttempt(table[i], now, policy, fates(table[i].id).confirmed) else table[i]
    decreases |recs|
  {
    hide AfterAttempt, Handled;
    if recs != [] {
      var table' := Handled(table, recs[0], now, policy, fates(recs[0].id));
      assert recs == [recs[0]] + recs[1..];
      forall r | r in recs[1..]
        ensures r in table' && r.id != recs[0].id
      {
        var j :| 0 <= j < |table| && table[j] == r;
        HandledRow(table, recs[0], now, policy, fates(recs[0].id), j);
      }
      HandledRow(table, recs[0], now, policy, fates(recs[0].id), i);
      WrittenDrain(table', recs[1..], now, policy, fates, i);
      SameRow(table, recs[0], i);
    }
  }

  lemma SameRow(table: seq<OutboxRecord>, rec: OutboxRecord, i: nat)
    requires DistinctIDs(table) && rec in table && i < |table|
    ensures table[i].id == rec.id <==> table[i] == rec
  {
    var k :| 0 <= k < |table| && table[k] == rec;
  }

  lemma DelayIsPositive(p: BackoffPolicy, attempts: int)
    requires 0 < p.base < HALF && 0 < p.ceiling <= HALF
    ensures DelayAfter(p, attempts) > 0
  {
    DelayClosedForm(p, attempts);
    if attempts > 1 {
      Pow2Positive(attempts - 1);
      TimesAtLeast(Pow2(attempts - 1), p.base);
    }
  }

  /**
   * When every statement of a poll succeeds and its batch was not filled, each due event is either published or, its
   * publish having failed, put off by the base at first and then by min(base * 2^(attempts-1), maximum), and no other
   * event is touched; a second claim at that time is empty.
   */
  lemma PollDrains(table: seq<OutboxRecord>, now: Time, batch: nat, policy: BackoffPolicy, fates: Id -> Fate)
    requires DistinctIDs(table) && |Claim(table, now, batch)| < batch
    requires forall r :: r in Claim(table, now, batch) ==> fates(r.id).written
    requires 0 < policy.base < HALF && 0 < policy.ceiling <= HALF
    ensures var table' := Drain(table, Claim(table, now, batch), now, policy, fates).table;
            && Claim(table', now, batch) == [] && |table'| == |table|
            && forall i :: 0 <= i < |table| ==>
                 var rec := table[i];
                 var wait := if rec.attempts == 0 then policy.base as int
                             else Min(policy.base * Pow2(rec.attempts), policy.ceiling);
                 table'[i] == if rec.publishedAt.Some? || rec.nextAttempt > now then rec
                              else if fates(rec.id).confirmed then rec.(publishedAt := Some(now))
                              else rec.(attempts := rec.attempts + 1, nextAttempt := now + wait)
  {
    hide Claim, Drain, DelayAfter, DistinctIDs;
    var recs := Claim(table, now, batch);
    var table' := Drain(table, recs, now, policy, fates).table;
    ClaimIsExact(table, now, batch);
    DrainKeepsLength(table, recs, now, policy, fates);
    forall i | 0 <= i < |table|
      ensures !Claimable(table'[i], now)
      ensures table'[i] == if Claimable(table[i], now)
                           then AfterAttempt(table[i], now, policy, fates(table[i].id).confirmed) else table[i]
      ensures var n := table[i].attempts;
              DelayAfter(policy, n + 1) == if n == 0 then policy.base else Min(policy.base * Pow2(n), policy.ceiling)
    {
      WrittenDrain(table, recs, now, policy, fates, i);
      DelayIsPositive(policy, table[i].attempts + 1);
      DelayClosedForm(policy, table[i].attempts + 1);
    }
    NothingToClaim(table', now, batch);
  }

  lemma {:induction false} NothingUnpublished(table: seq<OutboxRecord>, now: Time)
    requires forall i :: 0 <= i < |table| ==> !Claimable(table[i], now)
    ensures Unpublished(table, now) == []
  {
    if table != [] {
      NothingUnpublished(table[..|table| - 1], now);
    }
  }

  lemma NothingToClaim(table: seq<OutboxRecord>, now: Time, batch: nat)
    requires forall i :: 0 <= i < |table| ==> !Claimable(table[i], now)
    ensures Claim(table, now, batch) == []
  {
    NothingUnpublished(table, now);
  }
}
