/**
 * internal/infra/postgres/outbox_repository.go and internal/infra/rabbitmq/outbox_worker.go: the transactional outbox
 * and the worker that publishes it.
 */
module Outbox {
  import opened Prelude
  import opened Int64
  import opened Backoff
  import opened Ordering
  import opened Store

  // ---- the repository's statements ----

  predicate Claimable(rec: OutboxRecord, now: Time) {
    rec.publishedAt.None? && rec.nextAttempt <= now
  }

  function DueKey(rec: OutboxRecord): Key {
    (rec.nextAttempt, rec.id)
  }

  function Unpublished(table: seq<OutboxRecord>, now: Time): seq<OutboxRecord> {
    if table == [] then []
    else
      var last := table[|table| - 1];
      Unpublished(table[..|table| - 1], now) + if Claimable(last, now) then [last] else []
  }

  /** SELECT ... WHERE published_at IS NULL AND next_attempt <= now ORDER BY next_attempt, event_id LIMIT. */
  function Claim(table: seq<OutboxRecord>, now: Time, limit: nat): seq<OutboxRecord> {
    Take(SortBy(Unpublished(table, now), DueKey), limit)
  }

  function Marked(table: seq<OutboxRecord>, id: Id, at: Time): (r: seq<OutboxRecord>) {
    seq(|table|, i requires 0 <= i < |table| =>
      if table[i].id == id then table[i].(publishedAt := Some(at)) else table[i])
  }

  function Postponed(table: seq<OutboxRecord>, id: Id, attempts: nat, next: Time): (r: seq<OutboxRecord>) {
    seq(|table|, i requires 0 <= i < |table| =>
      if table[i].id == id then table[i].(attempts := attempts, nextAttempt := next) else table[i])
  }

  class OutboxRepository {
    const db: Database

    constructor (db: Database)
      ensures this.db == db
    {
      this.db := db;
    }

    method ClaimPending(now: Time, limit: nat) returns (records: seq<OutboxRecord>)
      ensures records == Claim(db.world.outbox, now, limit)
    {
      return Claim(db.world.outbox, now, limit);
    }

    method MarkPublished(id: Id, at: Time)
      modifies db
      ensures db.world == old(db.world).(outbox := Marked(old(db.world).outbox, id, at))
    {
      db.world := db.world.(outbox := Marked(db.world.outbox, id, at));
    }

    method ScheduleRetry(id: Id, attempts: nat, next: Time)
      modifies db
      ensures db.world == old(db.world).(outbox := Postponed(old(db.world).outbox, id, attempts, next))
    {
      db.world := db.world.(outbox := Postponed(db.world.outbox, id, attempts, next));
    }
  }

  // ---- one poll ----

  /** What happens to one record: whether the broker confirmed it, and whether the statement that follows succeeds. */
  datatype Fate = Fate(confirmed: bool, written: bool)

  datatype Attempted = Attempted(id: Id, fate: Fate)

  function Handled(table: seq<OutboxRecord>, rec: OutboxRecord, now: Time, policy: BackoffPolicy, fate: Fate)
    : seq<OutboxRecord>
  {
    if !fate.written then table
    else if fate.confirmed then Marked(table, rec.id, now)
    else Postponed(table, rec.id, rec.attempts + 1, now + DelayAfter(policy, rec.attempts + 1))
  }

  datatype Drained = Drained(table: seq<OutboxRecord>, log: seq<Attempted>, failed: bool)

  /** Records are handled in order; the first failed statement ends the poll with an error. */
  function Drain(table: seq<OutboxRecord>, recs: seq<OutboxRecord>, now: Time, policy: BackoffPolicy,
                 fates: Id -> Fate): Drained
    decreases |recs|
  {
    if recs == [] then Drained(table, [], false)
    else
      var fate := fates(recs[0].id);
      var attempted := Attempted(recs[0].id, fate);
      var table' := Handled(table, recs[0], now, policy, fate);
      if !fate.written then Drained(table', [attempted], true)
      else
        var rest := Drain(table', recs[1..], now, policy, fates);
        rest.(log := [attempted] + rest.log)
  }

  /** The publisher: a log of what was attempted, with the broker's answers decided by the environment. */
  class Publisher {
    var log: seq<Attempted>

    constructor ()
      ensures log == []
    {
      log := [];
    }

    method Publish(id: Id, fate: Fate) returns (confirmed: bool)
      modifies this
      ensures confirmed == fate.confirmed && log == old(log) + [Attempted(id, fate)]
    {
      log := log + [Attempted(id, fate)];
      return fate.confirmed;
    }
  }

  class OutboxWorker {
    const outbox: OutboxRepository
    const publisher: Publisher
    const batchSize: nat
    const backoff: BackoffPolicy

    constructor (outbox: OutboxRepository, publisher: Publisher, batchSize: int)
      ensures this.outbox == outbox && this.publisher == publisher
      ensures this.batchSize == (if batchSize <= 0 then 100 else batchSize)
      ensures backoff == BackoffPolicy(2 * SECOND, 5 * MINUTE)
    {
      this.outbox, this.publisher := outbox, publisher;
      this.batchSize := if batchSize <= 0 then 100 else batchSize;
      backoff := BackoffPolicy(2 * SECOND, 5 * MINUTE);
    }

    /** `fates` is the environment's part: publishes that fail and statements that fail. */
    method RunOnce(now: Time, fates: Id -> Fate) returns (n: nat, failed: bool)
      modifies outbox.db, publisher
      ensures var claimed := Claim(old(outbox.db.world).outbox, now, batchSize);
              var done := Drain(old(outbox.db.world).outbox, claimed, now, backoff, fates);
              && n == |claimed| && failed == done.failed
              && outbox.db.world == old(outbox.db.world).(outbox := done.table)
              && publisher.log == old(publisher.log) + done.log
    {
      hide Claim, Handled;
      var records := outbox.ClaimPending(now, batchSize);
      n := |records|;
      ghost var started := publisher.log;
      ghost var done := Drain(outbox.db.world.outbox, records, now, backoff, fates);
      ghost var log: seq<Attempted> := [];
      var i := 0;
      while i < |records|
        invariant 0 <= i <= |records|
        invariant outbox.db.world == old(outbox.db.world).(outbox := outbox.db.world.outbox)
        invariant publisher.log == started + log
        invariant var rest := Drain(outbox.db.world.outbox, records[i..], now, backoff, fates);
                  done == rest.(log := log + rest.log)
      {
        ghost var table := outbox.db.world.outbox;
        DrainStep(table, records, i, now, backoff, fates);
        failed := HandleRecord(records[i], now, fates(records[i].id));
        log := log + [Attempted(records[i].id, fates(records[i].id))];
        if failed {
          return n, true;
        }
        i := i + 1;
      }
      return n, false;
    }

    /** The loop body: publish, then mark or schedule. */
    method HandleRecord(rec: OutboxRecord, now: Time, fate: Fate) returns (failed: bool)
      modifies outbox.db, publisher
      ensures failed == !fate.written
      ensures outbox.db.world
              == old(outbox.db.world).(outbox := Handled(old(outbox.db.world).outbox, rec, now, backoff, fate))
      ensures publisher.log == old(publisher.log) + [Attempted(rec.id, fate)]
    {
      hide Marked, Postponed, DelayAfter;
      var confirmed := publisher.Publish(rec.id, fate);
      if !confirmed {
        var attempts := rec.attempts + 1;
        var delay := NextAttemptDelay(backoff, attempts);
        if !fate.written {
          return true;
        }
        outbox.ScheduleRetry(rec.id, attempts, now + delay);
        return false;
      }
      if !fate.written {
        return true;
      }
      outbox.MarkPublished(rec.id, now);
      return false;
    }
  }

  lemma DrainStep(table: seq<OutboxRecord>, recs: seq<OutboxRecord>, i: nat, now: Time, policy: BackoffPolicy,
                  fates: Id -> Fate)
    requires i < |recs|
    ensures var fate := fates(recs[i].id);
            var table' := Handled(table, recs[i], now, policy, fate);
            var rest := Drain(table', recs[i + 1..], now, policy, fates);
            Drain(table, recs[i..], now, policy, fates)
            == if fate.written then rest.(log := [Attempted(recs[i].id, fate)] + rest.log)
               else Drained(table', [Attempted(recs[i].id, fate)], true)
  {
    hide Handled;
    assert recs[i..][0] == recs[i] && recs[i..][1..] == recs[i + 1..];
  }
}
