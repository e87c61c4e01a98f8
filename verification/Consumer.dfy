/**
 * internal/infra/rabbitmq/consumer.go: what becomes of a delivery. Every handling ends in one ack or one requeue,
 * after at most one publish to the retry or the dead-letter exchange.
 */
module Consuming {
  import opened Prelude
  import opened Int64
  import opened Backoff
  import opened Store
  import opened Engine
  import opened ProcessWager

  /** What a header holds, as far as it matters here. */
  datatype HeaderValue = Int32(n: int64) | BigInt(n: int64) | PlainInt(n: int64) | Text(s: string) | OtherValue

  type Headers = map<string, HeaderValue>

  datatype Delivery = Delivery(messageID: string, headers: Headers, body: string, routingKey: string)

  const RETRY_COUNT := "x-retry-count"
  const REASON := "x-dead-letter-reason"
  const ORIGINAL_ROUTING := "x-original-routing-key"

  /** Go's int32(x): the low 32 bits. */
  function Low32(x: int): (r: int64)
    ensures -0x8000_0000 <= r <= 0x7fff_ffff && (x - r) % 0x1_0000_0000 == 0
  {
    (x + 0x8000_0000) % 0x1_0000_0000 - 0x8000_0000
  }

  function RetryCount(headers: Headers): (count: int64)
    ensures var readable := "x-retry-count" in headers && !headers["x-retry-count"].Text?
                            && !headers["x-retry-count"].OtherValue?;
            count == if readable then headers["x-retry-count"].n else 0
  {
    if RETRY_COUNT !in headers then 0
    else
      match headers[RETRY_COUNT]
      case Int32(n) => n
      case BigInt(n) => n
      case PlainInt(n) => n
      case _ => 0
  }

  // ---- the verdict on a delivery ----

  /** What the steps before the use case make of a delivery. */
  datatype Parsed = NoProvider | Malformed | Invalid | Panicked | Ready(cmd: Command)

  datatype Verdict = Success | DeadEnd(reason: string) | Transient

  /** Errors that a retry cannot cure go to the dead-letter exchange; all others are worth a retry. */
  function VerdictOn(r: Result<ProcessResult, Error>): Verdict {
    match r
    case Ok(_) => Success
    case Err(IdempotencyKeyReused) => DeadEnd("idempotency conflict")
    case Err(ExternalTransactionKeyMismatch) => DeadEnd("idempotency conflict")
    case Err(_) => Transient
  }

  /** The use case's answer, given how its commit ends. */
  function Answer(p: Processed, commit: CommitResult): Result<ProcessResult, Error> {
    match p
    case Err(e) => Err(e)
    case Ok(done) => if commit.Confirmed? then Ok(done.1) else Err(CommitFailed)
  }

  /** A panic before the use case is `Panicked`; `panics` is one after it has returned, committed or not. */
  ghost function VerdictFor(w: World, d: Delivery, parsed: Parsed, commit: CommitResult, panics: bool): Verdict {
    if d.messageID == "" then DeadEnd("missing MessageId, cannot deduplicate")
    else
      match parsed
      case NoProvider => DeadEnd("provider resolution failed")
      case Malformed => DeadEnd("malformed JSON body")
      case Invalid => DeadEnd("invalid payload")
      case Panicked => DeadEnd("panic")
      case Ready(cmd) => if panics then DeadEnd("panic") else VerdictOn(Answer(Execute(w, cmd), commit))
  }

  /** The tables after a delivery: only a use case whose commit took effect wrote anything. */
  ghost function WorldAfter(w: World, d: Delivery, parsed: Parsed, commit: CommitResult): World {
    if d.messageID != "" && parsed.Ready? && Execute(w, parsed.cmd).Ok? && commit.Took()
    then Execute(w, parsed.cmd).value.0 else w
  }

  // ---- what is done about it ----

  datatype Effect = ToRetry(message: Delivery, delay: int64) | ToDeadLetter(message: Delivery) | Acked | Requeued

  function RetryMessage(d: Delivery, attempt: int64): Delivery {
    d.(headers := d.headers[RETRY_COUNT := Int32(Low32(attempt))])
  }

  function DeadMessage(d: Delivery, reason: string): Delivery {
    d.(headers := d.headers[REASON := Text(reason)][ORIGINAL_ROUTING := Text(d.routingKey)])
  }

  /** A dead letter whose publish fails is only logged; the delivery is acked all the same. */
  function Buried(d: Delivery, reason: string, published: bool): seq<Effect> {
    if published then [ToDeadLetter(DeadMessage(d, reason)), Acked] else [Acked]
  }

  /** 2s * 2^(attempt-1), at most a minute. */
  function RetryDelay(attempt: int): int64 {
    DelayAfter(BackoffPolicy(2 * SECOND, MINUTE), attempt)
  }

  function Disposal(d: Delivery, verdict: Verdict, maxRetries: int64, published: bool): seq<Effect> {
    match verdict
    case Success => [Acked]
    case DeadEnd(reason) => Buried(d, reason, published)
    case Transient =>
      var attempt := Wrap(RetryCount(d.headers) + 1);
      if attempt > maxRetries then Buried(d, "retry budget exhausted", published)
      else if published then [ToRetry(RetryMessage(d, attempt), RetryDelay(attempt)), Acked]
      else [Requeued]
  }

  /** The AMQP channel: what was published and settled on it, in order. */
  class Channel {
    var log: seq<Effect>

    constructor ()
      ensures log == []
    {
      log := [];
    }

    method Do(e: Effect)
      modifies this
      ensures log == old(log) + [e]
    {
      log := log + [e];
    }
  }

  class Consumer {
    const channel: Channel
    const useCase: ProcessWagerTransaction
    const maxRetries: int64

    constructor (channel: Channel, useCase: ProcessWagerTransaction, maxRetries: int64)
      ensures this.channel == channel && this.useCase == useCase && this.maxRetries == maxRetries
    {
      this.channel, this.useCase, this.maxRetries := channel, useCase, maxRetries;
    }

    /** `parsed`, `commit`, `panics` and `published` are the environment's part. */
    method Handle(d: Delivery, parsed: Parsed, commit: CommitResult, panics: bool, published: bool)
      requires useCase.db.Valid()
      modifies channel, useCase.db
      ensures useCase.db.Valid()
      ensures var w := old(useCase.db.world);
              && channel.log
                 == old(channel.log) + Disposal(d, VerdictFor(w, d, parsed, commit, panics), maxRetries, published)
              && useCase.db.world == WorldAfter(w, d, parsed, commit)
    {
      hide Engine.Execute, DeadMessage, RetryMessage, RetryDelay, RetryCount, Wrap;
      if d.messageID == "" {
        DeadLetter(d, "missing MessageId, cannot deduplicate", published);
        channel.Do(Acked);
        return;
      }
      match parsed
      case NoProvider =>
        DeadLetter(d, "provider resolution failed", published);
        channel.Do(Acked);
      case Malformed =>
        DeadLetter(d, "malformed JSON body", published);
        channel.Do(Acked);
      case Invalid =>
        DeadLetter(d, "invalid payload", published);
        channel.Do(Acked);
      case Panicked =>
        DeadLetter(d, "panic", published);
        channel.Do(Acked);
      case Ready(cmd) => HandleCommand(d, cmd, commit, panics, published);
    }

    /** From the use case on. */
    method HandleCommand(d: Delivery, cmd: Command, commit: CommitResult, panics: bool, published: bool)
      requires useCase.db.Valid() && d.messageID != ""
      modifies channel, useCase.db
      ensures useCase.db.Valid()
      ensures var w := old(useCase.db.world);
              && channel.log
                 == old(channel.log)
                    + Disposal(d, VerdictFor(w, d, Ready(cmd), commit, panics), maxRetries, published)
              && useCase.db.world == WorldAfter(w, d, Ready(cmd), commit)
    {
      hide Engine.Execute, DeadMessage, RetryMessage, RetryDelay, RetryCount, Wrap;
      var r := useCase.Execute(cmd, commit);
      assert r == Answer(Engine.Execute(old(useCase.db.world), cmd), commit);
      if panics {
        DeadLetter(d, "panic", published);
        channel.Do(Acked);
      } else if r.Ok? {
        channel.Do(Acked);
      } else if r.error == IdempotencyKeyReused || r.error == ExternalTransactionKeyMismatch {
        DeadLetter(d, "idempotency conflict", published);
        channel.Do(Acked);
      } else {
        Retry(d, published);
      }
    }

    method Retry(d: Delivery, published: bool)
      modifies channel
      ensures channel.log == old(channel.log) + Disposal(d, Transient, maxRetries, published)
    {
      hide DeadMessage, RetryCount, Wrap, DelayAfter;
      var attempt := Wrap(RetryCount(d.headers) + 1);
      if attempt > maxRetries {
        DeadLetter(d, "retry budget exhausted", published);
        channel.Do(Acked);
        return;
      }
      var headers := CopyHeaders(d.headers);
      headers := headers[RETRY_COUNT := Int32(Low32(attempt))];
      var backoff := BackoffFor(attempt);
      assert backoff == RetryDelay(attempt) by {
        DelayClosedForm(BackoffPolicy(2 * SECOND, MINUTE), attempt);
      }
      if !published {
        channel.Do(Requeued);
        return;
      }
      channel.Do(ToRetry(d.(headers := headers), backoff));
      channel.Do(Acked);
    }

    method DeadLetter(d: Delivery, reason: string, published: bool)
      modifies channel
      ensures channel.log == old(channel.log) + if published then [ToDeadLetter(DeadMessage(d, reason))] else []
    {
      var headers := CopyHeaders(d.headers);
      headers := headers[REASON := Text(reason)];
      headers := headers[ORIGINAL_ROUTING := Text(d.routingKey)];
      if published {
        channel.Do(ToDeadLetter(d.(headers := headers)));
      }
    }
  }

  method CopyHeaders(from: Headers) returns (headers: Headers)
    ensures headers == from
  {
    headers := map[];
    var keys := from.Keys;
    while keys != {}
      invariant keys <= from.Keys
      invariant headers == map k | k in from && k !in keys :: from[k]
      decreases keys
    {
      var k :| k in keys;
      headers := headers[k := from[k]];
      keys := keys - {k};
    }
  }
}
