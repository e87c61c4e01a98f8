/**
 * What the consumer promises of a message: it is settled once per handling, retried within its budget and never
 * longer, and a redelivery after a commit without an ack changes nothing.
 */
module Redelivery {
  import opened Prelude
  import opened Int64
  import opened WagerDomain
  import opened Store
  import opened Engine
  import opened Runs
  import opened References
  import opened Idempotency
  import opened Decisions
  import opened Backoff
  import opened Consuming

  // ---- one handling ----

  predicate Settles(e: Effect) {
    e.Acked? || e.Requeued?
  }

  predicate HasBudget(d: Delivery, maxRetries: int64) {
    Wrap(RetryCount(d.headers) + 1) <= maxRetries
  }

  /** A handling settles its delivery exactly once, as its last effect, after at most one publish. */
  lemma SettledOnce(d: Delivery, verdict: Verdict, maxRetries: int64, published: bool)
    ensures var fx := Disposal(d, verdict, maxRetries, published);
            && 1 <= |fx| <= 2 && Settles(fx[|fx| - 1]) && (|fx| == 2 ==> !Settles(fx[0]) && fx[1].Acked?)
            && (fx[|fx| - 1].Requeued? <==> verdict.Transient? && HasBudget(d, maxRetries) && !published)
  {
    hide Wrap, RetryDelay;
  }

  /** The message is gone: acked without success and not published anywhere. */
  predicate Lost(fx: seq<Effect>, verdict: Verdict) {
    fx == [Acked] && !verdict.Success?
  }

  /** A message is lost exactly when it is a dead letter whose publish fails. */
  lemma LostExactly(d: Delivery, verdict: Verdict, maxRetries: int64, published: bool)
    ensures Lost(Disposal(d, verdict, maxRetries, published), verdict)
            <==> !published && (verdict.DeadEnd? || (verdict.Transient? && !HasBudget(d, maxRetries)))
  {
    hide Wrap, RetryDelay;
  }

  /** Acked, and a dead letter unless the publish failed: the message with a reason and where it came from. */
  predicate InDeadLetters(fx: seq<Effect>, d: Delivery, reason: string, sent: bool) {
    var headers := d.headers["x-dead-letter-reason" := Text(reason)]["x-original-routing-key" := Text(d.routingKey)];
    fx == if sent then [ToDeadLetter(d.(headers := headers)), Acked] else [Acked]
  }

  /** The message with the attempt's number, to come back after 2 seconds, then 4, 8 and so on, at most a minute. */
  predicate SentAgain(e: Effect, d: Delivery, attempt: int64) {
    && e.ToRetry? && e.message == d.(headers := d.headers["x-retry-count" := Int32(attempt)])
    && e.delay == Min(2_000_000_000 * Pow2(if attempt <= 1 then 0 else attempt - 1), 60_000_000_000)
  }

  /** A retry within int32 carries its number and waits its delay. */
  lemma SendsAgain(d: Delivery, attempt: int64)
    requires MIN32 <= attempt <= MAX32
    ensures SentAgain(ToRetry(RetryMessage(d, attempt), RetryDelay(attempt)), d, attempt)
  {
    hide DelayAfter;
    DelayClosedForm(BackoffPolicy(2 * SECOND, MINUTE), attempt);
    assert Low32(attempt) == attempt;
  }

  // ---- the verdict ----

  /**
   * A delivery succeeds exactly when its message could be read, the use case succeeded and its commit was confirmed;
   * it is worth a retry exactly when the use case failed otherwise than by a conflict, or its commit was not
   * confirmed; a conflict is a reused key or an external id under another key; and each other dead letter has its own
   * cause.
   */
  lemma VerdictsAreExact(w: World, d: Delivery, parsed: Parsed, commit: CommitResult, panics: bool)
    ensures var v := VerdictFor(w, d, parsed, commit, panics);
            var known := d.messageID != "";
            var reached := known && parsed.Ready? && !panics;
            && (v == Success <==> reached && commit.Confirmed? && Execute(w, parsed.cmd).Ok?)
            && (v == Transient <==>
                reached && if Execute(w, parsed.cmd).Ok? then !commit.Confirmed?
                           else Execute(w, parsed.cmd).error != IdempotencyKeyReused
                                && Execute(w, parsed.cmd).error != ExternalTransactionKeyMismatch)
            && (v == DeadEnd("idempotency conflict") <==>
                reached && (Execute(w, parsed.cmd) == Err(IdempotencyKeyReused)
                            || Execute(w, parsed.cmd) == Err(ExternalTransactionKeyMismatch)))
            && (v == DeadEnd("missing MessageId, cannot deduplicate") <==> !known)
            && (v == DeadEnd("provider resolution failed") <==> known && parsed.NoProvider?)
            && (v == DeadEnd("malformed JSON body") <==> known && parsed.Malformed?)
            && (v == DeadEnd("invalid payload") <==> known && parsed.Invalid?)
            && (v == DeadEnd("panic") <==> known && (parsed.Panicked? || (parsed.Ready? && panics)))
  {
    hide Execute;
    var v := VerdictFor(w, d, parsed, commit, panics);
    assert v.DeadEnd? ==> |v.reason| == if d.messageID == "" then |"missing MessageId, cannot deduplicate"|
                                        else match parsed
                                             case NoProvider => |"provider resolution failed"|
                                             case Malformed => |"malformed JSON body"|
                                             case Invalid => |"invalid payload"|
                                             case Panicked => |"panic"|
                                             case Ready(_) => if panics then |"panic"| else |"idempotency conflict"|;
  }

  /**
   * A message that reuses a key or an external id, whatever was done before, is a dead letter at its first handling,
   * and changes no table.
   */
  lemma ReuseIsBuried(policy: RetryPolicy, steps: seq<Step>, cmd: Command, id: Id, d: Delivery, commit: CommitResult,
                      maxRetries: int64, published: bool)
    requires Reuses(Run(policy, steps).txs, id, cmd) && !MessageSeen(Run(policy, steps), cmd) && d.messageID != ""
    ensures var w := Run(policy, steps);
            && WorldAfter(w, d, Ready(cmd), commit) == w
            && InDeadLetters(Disposal(d, VerdictFor(w, d, Ready(cmd), commit, false), maxRetries, published), d,
                             "idempotency conflict", published)
  {
    hide Run, Execute, Reuses, MessageSeen, CanonicalPayload, UnderAnotherKey, InboxClash;
    ReuseIsRefused(policy, steps, cmd, id, true);
  }

  lemma EnteredIsOrderly(w: World, cmd: Command)
    requires Orderly(w)
    ensures Orderly(Entered(w, cmd))
  {
    hide UniqueKeys, RowSound;
  }

  lemma TakesIgnoresInbox(w: World, w1: World, cmd: Command)
    requires w1 == w.(inbox := w1.inbox)
    ensures Takes(w1, cmd) <==> Takes(w, cmd)
  {
    hide Suits, Unreversed;
  }

  /** Executing a new command from a new message creates it. */
  lemma NovelIsCreated(w: World, cmd: Command)
    requires Novel(w, cmd) && cmd.inbox.Some? && cmd.inbox.value !in w.inbox
    ensures match Create(Entered(w, cmd), cmd)
            case Err(e) => Execute(w, cmd) == Err(e)
            case Ok(_) => Execute(w, cmd).Ok?
  {
    hide Create, CanonicalPayload;
  }

  /**
   * A new command in a new message is never buried at once: it succeeds exactly when it is fully specified and its
   * wallet is stored and takes it, and is retried otherwise, even where no retry can help.
   */
  lemma NewMessageIsTried(policy: RetryPolicy, steps: seq<Step>, cmd: Command, d: Delivery)
    requires Novel(Run(policy, steps), cmd) && d.messageID != ""
    requires cmd.inbox.Some? && cmd.inbox.value !in Run(policy, steps).inbox
    ensures var w := Run(policy, steps);
            VerdictFor(w, d, Ready(cmd), Confirmed, false)
            == if FullySpecified(cmd) && cmd.walletID in w.wallets && Takes(w, cmd) then Success else Transient
  {
    hide Run, Orderly, Create, Takes, FullySpecified, CanonicalPayload, Wanted;
    var w := Run(policy, steps);
    RunIsOrderly(policy, steps);
    EnteredIsOrderly(w, cmd);
    var w1 := Entered(w, cmd);
    NovelIsCreated(w, cmd);
    CreateSucceedsExactly(w1, cmd);
    TakesIgnoresInbox(w, w1, cmd);
    hide Execute;
    if Create(w1, cmd).Err? {
      CreateErrsExactly(w1, cmd);
    }
  }

  // ---- the life of a message ----

  const MIN32: int := -0x8000_0000
  const MAX32: int := 0x7fff_ffff

  /** `d` is a delivery of the published message; the broker may add headers of its own. */
  predicate Redelivers(d: Delivery, message: Delivery) {
    && d.messageID == message.messageID && d.body == message.body
    && RetryCount(d.headers) == RetryCount(message.headers)
  }

  /**
   * Successive deliveries of one message, with the verdict on each and whether its publish succeeded: each delivery
   * is a retry of the one before or, when publishing that failed, the one before again.
   */
  ghost predicate Chain(ds: seq<Delivery>, verdicts: seq<Verdict>, published: seq<bool>, maxRetries: int64) {
    && |ds| == |verdicts| == |published| >= 1
    && forall i :: 0 <= i < |ds| - 1 ==> Returns(ds[i], verdicts[i], maxRetries, published[i], ds[i + 1])
  }

  predicate Returns(d: Delivery, verdict: Verdict, maxRetries: int64, published: bool, next: Delivery) {
    var fx := Disposal(d, verdict, maxRetries, published);
    if fx[0].ToRetry? then Redelivers(next, fx[0].message) else fx == [Requeued] && Redelivers(next, d)
  }

  /** How many publishes failed. */
  function Failures(published: seq<bool>): nat {
    if published == [] then 0
    else
      var m := |published| - 1;
      Failures(published[..m]) + if published[m] then 0 else 1
  }

  /**
   * A retry within int32 is stamped with the next number, a requeued delivery keeps its own; only a delivery with
   * budget comes back.
   */
  lemma ReturnIsCounted(d: Delivery, verdict: Verdict, maxRetries: int64, published: bool, next: Delivery)
    requires MIN32 <= RetryCount(d.headers) <= MAX32 && maxRetries <= MAX32
    requires Returns(d, verdict, maxRetries, published, next)
    ensures RetryCount(d.headers) < maxRetries && verdict.Transient?
    ensures RetryCount(next.headers) == RetryCount(d.headers) + if published then 1 else 0
    ensures next.messageID == d.messageID && next.body == d.body
  {
    hide RetryDelay;
    WrapNearby(RetryCount(d.headers) + 1);
    hide Wrap;
    var attempt := RetryCount(d.headers) + 1;
    assert attempt <= MAX32 ==> Low32(attempt) == attempt;
  }

  /** Up to delivery k the count has gone up by the retries published, and nothing else about the message changed. */
  lemma {:induction false} ChainCounts(ds: seq<Delivery>, verdicts: seq<Verdict>, published: seq<bool>,
                                       maxRetries: int64, k: nat)
    requires Chain(ds, verdicts, published, maxRetries) && k < |ds|
    requires MIN32 <= RetryCount(ds[0].headers) <= maxRetries <= MAX32
    ensures RetryCount(ds[k].headers) == RetryCount(ds[0].headers) + k - Failures(published[..k]) <= maxRetries
    ensures Failures(published[..k]) <= k
    ensures ds[k].messageID == ds[0].messageID && ds[k].body == ds[0].body
    ensures forall i :: 0 <= i < k ==> verdicts[i].Transient?
  {
    hide Returns;
    if k > 0 {
      ChainCounts(ds, verdicts, published, maxRetries, k - 1);
      assert Returns(ds[k - 1], verdicts[k - 1], maxRetries, published[k - 1], ds[k]);
      ReturnIsCounted(ds[k - 1], verdicts[k - 1], maxRetries, published[k - 1], ds[k]);
      assert published[..k][..k - 1] == published[..k - 1];
    }
  }

  /**
   * A message that arrives with count c, at most the budget, is handled at most maxRetries - c + 1 times, and once
   * more for every retry publish that failed before: every handling but the last was transient, and the last one
   * ends in an ack after success, a dead letter, a retry or requeue of which budget is left, or a lost dead letter.
   */
  lemma RetriesAreBounded(ds: seq<Delivery>, verdicts: seq<Verdict>, published: seq<bool>, maxRetries: int64)
    requires Chain(ds, verdicts, published, maxRetries)
    requires MIN32 <= RetryCount(ds[0].headers) <= maxRetries <= MAX32
    ensures var n, c := |ds|, RetryCount(ds[0].headers);
            var failed := Failures(published[..n - 1]);
            var d, sent := ds[n - 1], published[n - 1];
            var last := Disposal(d, verdicts[n - 1], maxRetries, sent);
            var count := RetryCount(d.headers);
            && n <= maxRetries - c + 1 + failed && count == c + n - 1 - failed <= maxRetries
            && (forall i :: 0 <= i < n - 1 ==> verdicts[i].Transient?)
            && match verdicts[n - 1]
               case Success => last == [Acked]
               case DeadEnd(reason) => InDeadLetters(last, d, reason, sent)
               case Transient =>
                 if count == maxRetries then InDeadLetters(last, d, "retry budget exhausted", sent)
                 else if sent then SentAgain(last[0], d, count + 1) && last[1..] == [Acked]
                 else last == [Requeued]
  {
    hide Returns, RetryCount;
    var n := |ds|;
    ChainCounts(ds, verdicts, published, maxRetries, n - 1);
    var count := RetryCount(ds[n - 1].headers);
    WrapNearby(count + 1);
    hide Wrap;
    if count < maxRetries {
      SendsAgain(ds[n - 1], count + 1);
    }
    hide RetryMessage, RetryDelay;
  }

  /** A message that arrives beyond its budget is handled once more, and is a dead letter if that fails. */
  lemma BeyondBudget(d: Delivery, verdict: Verdict, maxRetries: int64, published: bool)
    requires maxRetries < RetryCount(d.headers) < MAX
    ensures var fx := Disposal(d, verdict, maxRetries, published);
            match verdict
            case Success => fx == [Acked]
            case DeadEnd(reason) => InDeadLetters(fx, d, reason, published)
            case Transient => InDeadLetters(fx, d, "retry budget exhausted", published)
  {
    hide RetryDelay;
    WrapNearby(RetryCount(d.headers) + 1);
    hide Wrap;
  }

  /** The exception: the largest count wraps, so whatever the budget, the message starts over. */
  lemma LargestCountStartsOver(d: Delivery, maxRetries: int64, published: bool)
    requires RetryCount(d.headers) == MAX
    ensures var fx := Disposal(d, Transient, maxRetries, published);
            if published then SentAgain(fx[0], d, 0) && fx[1..] == [Acked] else fx == [Requeued]
  {
    WrapNearby(MAX + 1);
    hide Wrap, DelayAfter;
    DelayClosedForm(BackoffPolicy(2 * SECOND, MINUTE), MIN);
  }

  // ---- commit without an ack ----

  /** Inbox records are never removed, keep their payload, and stay complete. */
  ghost predicate InboxKept(w: World, w': World) {
    forall k :: k in w.inbox ==>
                  k in w'.inbox && w'.inbox[k].hash == w.inbox[k].hash
                  && (w.inbox[k].completedAt.Some? ==> w'.inbox[k].completedAt.Some?)
  }

  lemma SubmitKeepsInbox(w: World, cmd: Command)
    requires Sound(w) && Execute(w, cmd).Ok?
    ensures InboxKept(w, Execute(w, cmd).value.0)
    ensures cmd.inbox.Some? ==>
              var w' := Execute(w, cmd).value.0;
              cmd.inbox.value in w'.inbox && w'.inbox[cmd.inbox.value].hash == CanonicalPayload(cmd)
              && w'.inbox[cmd.inbox.value].completedAt.Some?
  {
    hide Process, Sound, CanonicalPayload;
    var w1 := Entered(w, cmd);
    EnteredIsSound(w, cmd);
    if Process(w1, cmd).Ok? {
      ProcessKeepsInbox(w1, cmd);
    }
  }

  lemma StepKeepsInbox(w: World, policy: RetryPolicy, step: Step)
    requires Sound(w)
    ensures InboxKept(w, After(w, policy, step))
  {
    hide Open, Attempt, Execute, Sound, Changes, Due;
    match step
    case OpenWallet(cmd, commits) =>
      if Open(w, cmd).Ok? {
        OpenEffect(w, cmd);
      }
    case Resolve(id, now, commits) =>
      if id in w.txs && Due(w.txs[id], now) && Attempt(w, policy, w.txs[id].tx, now).Ok? {
        ResolveKeepsInbox(w, policy, id, now);
      }
    case Submit(cmd, commits) =>
      if Execute(w, cmd).Ok? {
        SubmitKeepsInbox(w, cmd);
      }
  }

  lemma {:induction false} RunKeepsInbox(policy: RetryPolicy, steps: seq<Step>, n: nat)
    requires n <= |steps|
    ensures InboxKept(Run(policy, steps[..n]), Run(policy, steps))
    decreases |steps|
  {
    hide Sound, After;
    if n < |steps| {
      var m := |steps| - 1;
      assert steps[..m][..n] == steps[..n];
      RunKeepsInbox(policy, steps[..m], n);
      RunIsSound(policy, steps[..m]);
      StepKeepsInbox(Run(policy, steps[..m]), policy, steps[m]);
    } else {
      assert steps[..n] == steps;
    }
  }

  /** A panic after the commit sends a message to the dead letters although its command is in the tables. */
  lemma PanicKeepsCommit(w: World, d: Delivery, cmd: Command, commit: CommitResult, maxRetries: int64, published: bool)
    requires d.messageID != "" && Execute(w, cmd).Ok? && commit.Took()
    ensures WorldAfter(w, d, Ready(cmd), commit) == Execute(w, cmd).value.0
    ensures var fx := Disposal(d, VerdictFor(w, d, Ready(cmd), commit, true), maxRetries, published);
            InDeadLetters(fx, d, "panic", published)
  {
    hide Execute;
  }

  /**
   * A message whose first handling committed, at step n of a run, but was not acked, is delivered again: whatever
   * happened in between, the second handling acks it, changes no table at all and reports the same transaction.
   */
  lemma RedeliveryIsHarmless(policy: RetryPolicy, steps: seq<Step>, n: nat, cmd: Command, again: Command, d: Delivery,
                             commit: CommitResult, panics: bool)
    requires n < |steps| && steps[n] == Submit(cmd, true) && cmd.inbox.Some? && d.messageID != ""
    requires var first := Execute(Run(policy, steps[..n]), cmd); first.Ok? && !first.value.1.replay
    requires SameCommand(cmd, again) && again.inbox == cmd.inbox
    ensures var w := Run(policy, steps);
            var id := Execute(Run(policy, steps[..n]), cmd).value.1.transactionID;
            && id in w.txs && Execute(w, again) == Ok((w, ResultOf(w.txs[id].tx, true)))
            && WorldAfter(w, d, Ready(again), commit) == w
            && (commit.Confirmed? && !panics ==> VerdictFor(w, d, Ready(again), commit, panics) == Success)
  {
    hide Run, Sound, InboxBacked, OwnsAlone, AtMostOneEntry, Execute, CanonicalPayload, ResultOf;
    var w0, w := Run(policy, steps[..n]), Run(policy, steps);
    RunIsSound(policy, steps[..n]);
    SubmitKeepsInbox(w0, cmd);
    AfterCommit(policy, steps, n, cmd);
    RunKeepsInbox(policy, steps, n + 1);
    ExactlyOnce(policy, steps, n, cmd, again);
    SamePayload(cmd, again);
    assert !InboxClash(w, again);
    CompletedIsUnchanged(w, again);
  }

  lemma SamePayload(cmd: Command, again: Command)
    requires SameCommand(cmd, again)
    ensures CanonicalPayload(again) == CanonicalPayload(cmd)
  {
  }

  /**
   * The first handling took effect at step n but its commit was reported as failed, so the message is treated as
   * transient; whenever it comes back, it finds its own committed row, is acked and changes no table.
   */
  lemma UnheardCommitIsHarmless(policy: RetryPolicy, steps: seq<Step>, n: nat, cmd: Command, again: Command,
                                d: Delivery, back: Delivery)
    requires n < |steps| && steps[n] == Submit(cmd, true) && cmd.inbox.Some?
    requires d.messageID != "" && back.messageID != ""
    requires var first := Execute(Run(policy, steps[..n]), cmd); first.Ok? && !first.value.1.replay
    requires SameCommand(cmd, again) && again.inbox == cmd.inbox
    ensures var w0, w := Run(policy, steps[..n]), Run(policy, steps);
            && VerdictFor(w0, d, Ready(cmd), Unheard, false) == Transient
            && WorldAfter(w0, d, Ready(cmd), Unheard) == Run(policy, steps[..n + 1])
            && VerdictFor(w, back, Ready(again), Confirmed, false) == Success
            && WorldAfter(w, back, Ready(again), Confirmed) == w
  {
    hide Run, Execute;
    AfterCommit(policy, steps, n, cmd);
    RedeliveryIsHarmless(policy, steps, n, cmd, again, back, Confirmed, false);
  }

  /**
   * The exception to refusing a reused key: once a message was handled, the same message under a key that belongs to
   * a transaction with another payload is answered with that transaction.
   */
  lemma SeenMessageAnswersForAnotherKey(policy: RetryPolicy, steps: seq<Step>, n: nat, cmd: Command, other: Id,
                                        key: string)
    requires n < |steps| && steps[n] == Submit(cmd, true) && cmd.inbox.Some?
    requires Execute(Run(policy, steps[..n]), cmd).Ok? && Reuses(Run(policy, steps).txs, other, cmd.(key := key))
    requires HasKey(Run(policy, steps).txs[other].tx, cmd.providerID, key)
    ensures var w := Run(policy, steps);
            Execute(w, cmd.(key := key)) == Ok((w, ResultOf(w.txs[other].tx, true)))
  {
    hide Run, Sound, InboxBacked, Execute;
    var w0, w := Run(policy, steps[..n]), Run(policy, steps);
    var again := cmd.(key := key);
    RunIsSound(policy, steps[..n]);
    SubmitKeepsInbox(w0, cmd);
    AfterCommit(policy, steps, n, cmd);
    RunKeepsInbox(policy, steps, n + 1);
    ReuseIsRefused(policy, steps, again, other, true);
    LookupsAgree(policy, steps, again.providerID, again.externalID, again.key);
    assert CanonicalPayload(again) == CanonicalPayload(cmd);
    assert FindKey(w.txs, again.providerID, key) == Some(other);
  }

  lemma CompletedIsUnchanged(w: World, cmd: Command)
    requires cmd.inbox.Some? && cmd.inbox.value in w.inbox && w.inbox[cmd.inbox.value].completedAt.Some?
    requires Execute(w, cmd).Ok?
    ensures Execute(w, cmd).value.0 == w
  {
    hide Process;
  }
}
