/**
 * How long a reversal can wait for its reference: the resolver never consults its attempt budget, so only the
 * maximum age bounds a parked row, and the base backoff spaces its attempts.
 */
module Expiry {
  import opened Prelude
  import opened Int64
  import opened MoneyDomain
  import opened WalletDomain
  import opened WagerDomain
  import opened Store
  import opened Engine
  import opened Runs
  import opened References
  import opened Idempotency
  import opened Decisions
  import opened StatusSafety
  import Ledger = LedgerDomain

  /** The step was an attempt on `id` that put it off. */
  ghost predicate PutsOff(w: World, policy: RetryPolicy, step: Step, id: Id) {
    && step.Resolve? && step.id == id && step.commits && id in w.txs && Due(w.txs[id], step.now)
    && var r := Attempt(w, policy, w.txs[id].tx, step.now); r.Ok? && !r.value.1
  }

  /** How many steps of a run put `id` off. */
  ghost function Reschedules(policy: RetryPolicy, steps: seq<Step>, id: Id): nat {
    if steps == [] then 0
    else
      var m := |steps| - 1;
      Reschedules(policy, steps[..m], id) + if PutsOff(Run(policy, steps[..m]), policy, steps[m], id) then 1 else 0
  }

  /** Clocks do not run behind: an attempt on `id` is not made before its row was created. */
  ghost predicate NoEarlyAttempt(policy: RetryPolicy, steps: seq<Step>, id: Id) {
    steps != [] ==>
      var m := |steps| - 1;
      NoEarlyAttempt(policy, steps[..m], id) && NotEarly(Run(policy, steps[..m]), steps[m], id)
  }

  ghost predicate NotEarly(w: World, step: Step, id: Id) {
    step.Resolve? && step.id == id && id in w.txs ==> step.now >= w.txs[id].tx.ident.createdAt
  }

  /** A reversal that reaches a verdict is no longer parked. */
  lemma VerdictEnds(w: World, t: Tx, target: Id, now: Time)
    requires target in w.txs && t.ident.id in w.txs && Reverse(w, t, target, now).Ok?
    ensures var (w', t') := Reverse(w, t, target, now).value;
            IsTerminal(t'.status) && t.ident.id in w'.txs && IsTerminal(w'.txs[t.ident.id].tx.status)
  {
    hide Ledger.New, ReferenceFault, CountReversals, DebitOf, CreditOf;
  }

  /** Only an attempt on a parked row touches it. */
  lemma OthersLeaveItAlone(w: World, policy: RetryPolicy, step: Step, id: Id)
    requires Sound(w) && id in w.txs && w.txs[id].tx.status.PendingReference? && !(step.Resolve? && step.id == id)
    ensures id in After(w, policy, step).txs && After(w, policy, step).txs[id] == w.txs[id]
  {
    hide Open, Execute, Attempt, UniqueKeys, RowSound, Justified, Carried, AnnouncedMove, AnnouncedNote, Due;
    var w' := After(w, policy, step);
    if w' != w {
      match step
      case OpenWallet(cmd, commits) =>
        OpenEffect(w, cmd);
        var c :| Changes(w, w', c) && (c.Opened? || c.Credited?);
      case Submit(cmd, commits) =>
        ExecuteEffect(w, cmd);
        var c :| Changes(w, w', c) && (c.Quiet? || About(c, w.next));
      case Resolve(other, now, commits) =>
        AttemptStep(w, policy, other, now);
        var c :| Changes(w, w', c) && About(c, other);
    }
  }

  lemma AttemptStep(w: World, policy: RetryPolicy, id: Id, now: Time)
    requires Sound(w) && id in w.txs && Due(w.txs[id], now) && Attempt(w, policy, w.txs[id].tx, now).Ok?
    ensures exists c :: Changes(w, Attempt(w, policy, w.txs[id].tx, now).value.0, c) && About(c, id)
  {
    hide Attempt, Changes;
    AttemptEffect(w, policy, id, now);
  }

  /** An attempt ends the row, leaves it as it is, or puts it off by one base backoff within the maximum age. */
  lemma AttemptOutcome(w: World, policy: RetryPolicy, now: Time, commits: bool, id: Id)
    requires Sound(w) && id in w.txs && w.txs[id].tx.status.PendingReference?
    ensures var w' := After(w, policy, Resolve(id, now, commits));
            id in w'.txs &&
            if PutsOff(w, policy, Resolve(id, now, commits), id)
            then && Due(w.txs[id], now) && now - w.txs[id].tx.ident.createdAt < policy.maxAge
                 && w'.txs[id] == w.txs[id].(attempts := 1, retryAt := Some(now + policy.baseBackoff))
            else IsTerminal(w'.txs[id].tx.status) || w'.txs[id] == w.txs[id]
  {
    hide UniqueKeys, Reverse, Refuse, RowSound, Recorded;
    var t := w.txs[id].tx;
    ParkedIsOpen(w, id);
    if Due(w.txs[id], now) {
      match FindExternal(w.txs, t.ident.providerID, t.ident.reference)
      case Some(target) =>
        if Reverse(w, t, target, now).Ok? {
          VerdictEnds(w, t, target, now);
        }
      case None =>
        RefusalEnds(w, t, FailureCode.ReferenceNotFound, now);
    }
  }

  lemma RefusalEnds(w: World, t: Tx, code: FailureCode, now: Time)
    requires InHand(w, t) && code != NoCode
    ensures var r := Refuse(w, t, code, now);
            r.Ok? && t.ident.id in r.value.0.txs && IsTerminal(r.value.0.txs[t.ident.id].tx.status)
  {
    RefuseEffect(w, t, code, now);
  }

  /** Where a row that was put off k times stands. */
  ghost predicate Waited(txs: map<Id, TxRow>, id: Id, policy: RetryPolicy, k: nat) {
    && (k > 0 ==> id in txs && (k - 1) * policy.baseBackoff < policy.maxAge)
    && (k > 0 && txs[id].tx.status.PendingReference? ==>
          txs[id].retryAt.Some? && txs[id].retryAt.value >= txs[id].tx.ident.createdAt + k * policy.baseBackoff)
  }

  lemma WaitedStep(w: World, policy: RetryPolicy, step: Step, id: Id, k: nat)
    requires Sound(w) && policy.baseBackoff > 0 && Waited(w.txs, id, policy, k)
    requires NotEarly(w, step, id)
    ensures Waited(After(w, policy, step).txs, id, policy, if PutsOff(w, policy, step, id) then k + 1 else k)
  {
    hide After, Attempt, Sound, Changes;
    StepChanges(w, policy, step);
    var c :| Changes(w, After(w, policy, step), c);
    ChangesExtend(w, After(w, policy, step), c);
    ChangesKeepTerminal(w, After(w, policy, step), c);
    if id in w.txs {
      RowStatuses(w, id);
    }
    if id in w.txs && w.txs[id].tx.status.PendingReference? {
      if step.Resolve? && step.id == id {
        AttemptOutcome(w, policy, step.now, step.commits, id);
        assert step == Resolve(id, step.now, step.commits);
        assert (k + 1) * policy.baseBackoff == k * policy.baseBackoff + policy.baseBackoff;
      } else {
        OthersLeaveItAlone(w, policy, step, id);
      }
    }
  }

  lemma RowStatuses(w: World, id: Id)
    requires Sound(w) && id in w.txs
    ensures IsTerminal(w.txs[id].tx.status) || w.txs[id].tx.status.PendingReference?
  {
    hide UniqueKeys;
    assert RowSound(w.txs[id].tx);
  }

  lemma {:induction false} RunWaits(policy: RetryPolicy, steps: seq<Step>, id: Id)
    requires policy.baseBackoff > 0 && NoEarlyAttempt(policy, steps, id)
    ensures Waited(Run(policy, steps).txs, id, policy, Reschedules(policy, steps, id))
  {
    if steps != [] {
      hide Waited, PutsOff, Sound, After, NotEarly;
      var m := |steps| - 1;
      RunWaits(policy, steps[..m], id);
      RunIsSound(policy, steps[..m]);
      WaitedStep(Run(policy, steps[..m]), policy, steps[m], id, Reschedules(policy, steps[..m], id));
    }
  }

  /** ceil(age / step), and none for no age. */
  function CeilDiv(age: int, step: int): int
    requires step > 0
  {
    if age <= 0 then 0 else (age + step - 1) / step
  }

  /** However long a run goes on, a row is put off at most ceil(maxAge / baseBackoff) times. */
  lemma WaitingIsBounded(policy: RetryPolicy, steps: seq<Step>, id: Id)
    requires policy.baseBackoff > 0 && NoEarlyAttempt(policy, steps, id)
    ensures Reschedules(policy, steps, id) <= CeilDiv(policy.maxAge, policy.baseBackoff)
  {
    hide Run, NoEarlyAttempt, Reschedules, PutsOff;
    RunWaits(policy, steps, id);
    var k, base := Reschedules(policy, steps, id), policy.baseBackoff;
    if k > 0 {
      assert k * base == (k - 1) * base + base && (k - 1) * base >= 0;
      FloorAtLeast(policy.maxAge + base - 1, base, k);
    }
  }

  lemma FloorAtLeast(n: int, d: int, k: int)
    requires d > 0 && k * d <= n
    ensures k <= n / d
  {
    var e := k - n / d;
    assert e * d == k * d - (n / d) * d;
    MultipleOutside(e, d);
  }

  /**
   * The first attempt at or past the maximum age, with the reference still missing, rejects the reversal as
   * REFERENCE_NOT_FOUND, announces it and moves no money.
   */
  lemma ExpiryRejects(w: World, policy: RetryPolicy, id: Id, now: Time)
    requires Sound(w) && id in w.txs && w.txs[id].tx.status.PendingReference?
    requires now - w.txs[id].tx.ident.createdAt >= policy.maxAge
    requires FindExternal(w.txs, w.txs[id].tx.ident.providerID, w.txs[id].tx.ident.reference) == None
    ensures var t := w.txs[id].tx;
            var r := Attempt(w, policy, t, now);
            && r.Ok? && r.value.1
            && r.value.0.txs == w.txs[id := w.txs[id].(tx := RejectedTx(t, FailureCode.ReferenceNotFound, now))]
            && r.value.0.wallets == w.wallets && r.value.0.ledger == w.ledger && r.value.0.next == w.next + 1
            && (var event := TransactionRejected(id, t.ident.providerID, t.ident.externalID, t.ident.walletID,
                                                 t.ident.playerID, t.ident.kind, FailureCode.ReferenceNotFound, now);
                r.value.0.outbox == w.outbox + [OutboxRecord(w.next, event, now, 0, now, None)])
  {
    hide UniqueKeys;
    assert RowSound(w.txs[id].tx);
  }

  /** The wallet can take the movement that reversing `target` calls for, if it calls for one. */
  ghost predicate CanDecide(w: World, p: Ident, target: Id)
    requires target in w.txs
  {
    ReferenceFault(p, w.txs[target].tx) == NoCode && Unreversed(w.txs, target) ==>
      Movable(w, ReversalDirection(w.txs[target].tx.ident.kind), p.walletID, p.money)
  }

  lemma ReverseSucceedsExactly(w: World, id: Id, target: Id, now: Time)
    requires Orderly(w) && Consistent(w) && id in w.txs && w.txs[id].tx.status.PendingReference? && target in w.txs
    ensures Reverse(w, w.txs[id].tx, target, now).Ok? <==> CanDecide(w, w.txs[id].tx.ident, target)
  {
    hide Consistent, Movable, UniqueKeys, RowSound;
    var t := w.txs[id].tx;
    ParkedIsOpen(w, id);
    ReversalIsNamed(w, id);
    UnprocessedHasNoEntry(w, id);
    NoReversals(w.txs, target);
    hide ReferenceFault, Unreversed, CountReversals, Settle, Refuse;
    var code := ReferenceFault(t.ident, w.txs[target].tx);
    if code != NoCode {
      RefuseEffect(w, t, code, now);
    } else if !Unreversed(w.txs, target) {
      RefuseEffect(w, t, DuplicateReversal, now);
    } else {
      SettleSucceedsExactly(w, t, Some(target), ReversalDirection(w.txs[target].tx.ident.kind),
                            ReversalExceedsBalance, now);
    }
  }

  /**
   * Once the reference is stored, the next attempt on a due row ends it, one way or the other but not as not found,
   * exactly when the wallet can take what the verdict calls for. Otherwise the attempt errs and the row stays parked:
   * a found reference does not expire.
   */
  lemma ArrivalDecides(w: World, policy: RetryPolicy, id: Id, now: Time)
    requires Orderly(w) && Consistent(w) && id in w.txs && Due(w.txs[id], now)
    requires FindExternal(w.txs, w.txs[id].tx.ident.providerID, w.txs[id].tx.ident.reference).Some?
    ensures var p, w' := w.txs[id].tx.ident, After(w, policy, Resolve(id, now, true));
            var decides := CanDecide(w, p, FindExternal(w.txs, p.providerID, p.reference).value);
            && (Attempt(w, policy, w.txs[id].tx, now).Ok? <==> decides)
            && (if decides
                then id in w'.txs && IsTerminal(w'.txs[id].tx.status)
                     && w'.txs[id].tx.failure != FailureCode.ReferenceNotFound
                else w' == w)
  {
    hide Orderly, Consistent, Reverse, CanDecide;
    var t := w.txs[id].tx;
    var target := FindExternal(w.txs, t.ident.providerID, t.ident.reference).value;
    ReverseSucceedsExactly(w, id, target, now);
    OrderlyIsSound(w);
    ParkedIsOpen(w, id);
    if Reverse(w, t, target, now).Ok? {
      VerdictEnds(w, t, target, now);
      VerdictNamesAnother(w, t, target, now);
    }
  }

  lemma OrderlyIsSound(w: World)
    requires Orderly(w)
    ensures Sound(w)
  {
    hide Sound;
  }

  lemma VerdictNamesAnother(w: World, t: Tx, target: Id, now: Time)
    requires target in w.txs && t.ident.id in w.txs && t.failure == NoCode && Reverse(w, t, target, now).Ok?
    ensures var (w', t') := Reverse(w, t, target, now).value;
            t.ident.id in w'.txs && w'.txs[t.ident.id].tx.failure == t'.failure != FailureCode.ReferenceNotFound
  {
    hide Ledger.New, CountReversals, DebitOf, CreditOf;
  }

  /**
   * A parked reversal ends as REFERENCE_NOT_FOUND exactly when a due attempt finds its reference missing and its age
   * at or past the maximum.
   */
  lemma NotFoundExactly(w: World, policy: RetryPolicy, id: Id, now: Time)
    requires Sound(w) && id in w.txs && w.txs[id].tx.status.PendingReference?
    ensures var p, w' := w.txs[id].tx.ident, After(w, policy, Resolve(id, now, true));
            && id in w'.txs
            && (w'.txs[id].tx.failure == FailureCode.ReferenceNotFound
                <==> Due(w.txs[id], now) && FindExternal(w.txs, p.providerID, p.reference).None?
                     && now - p.createdAt >= policy.maxAge)
  {
    hide Sound, Reverse, Refuse, Due;
    var t := w.txs[id].tx;
    ParkedIsOpen(w, id);
    if Due(w.txs[id], now) {
      match FindExternal(w.txs, t.ident.providerID, t.ident.reference)
      case Some(target) =>
        if Reverse(w, t, target, now).Ok? {
          VerdictNamesAnother(w, t, target, now);
        }
      case None =>
        RefusalIsStored(w, t, FailureCode.ReferenceNotFound, now);
    }
  }

  /** Every attempt on `id` from step `from` on is made before the command is as old as the maximum age. */
  predicate AttemptsBefore(steps: seq<Step>, from: nat, id: Id, deadline: Time) {
    forall k :: from <= k < |steps| && steps[k].Resolve? && steps[k].id == id ==> steps[k].now < deadline
  }

  /** A new command is not refused for a missing reference. */
  lemma NewIsNotGivenUp(w: World, cmd: Command)
    requires Sound(w) && Execute(w, cmd).Ok? && !Execute(w, cmd).value.1.replay
    ensures var w' := Execute(w, cmd).value.0;
            w.next in w'.txs && w'.txs[w.next].tx.failure != FailureCode.ReferenceNotFound
  {
    hide Sound, Create, CanonicalPayload, Transcribes, Ruled;
    EnteredIsSound(w, cmd);
    FirstSuccessTranscribes(w, cmd);
    AnswersAreHonest(w, cmd);
    RulingIsExact(Entered(w, cmd), cmd);
    RulingsNameAnother(Entered(w, cmd), cmd, Create(Entered(w, cmd), cmd).value.1);
  }

  lemma RulingsNameAnother(w: World, cmd: Command, t: Tx)
    requires Ruled(w, cmd, t)
    ensures t.failure != FailureCode.ReferenceNotFound
  {
    hide Suits, Mismatched, NotYet, Exceeds, Unreversed;
    if RequiresReference(cmd.kind) && cmd.reference != cmd.externalID
       && !(forall id :: id in w.txs ==> !Names(w.txs, cmd, id)) {
      var id :| id in w.txs && Names(w.txs, cmd, id);
      assert RuledOn(w, cmd, id, t);
    }
  }

  /** One more step does not give the row up before its time. */
  lemma StepKeepsPatience(w: World, policy: RetryPolicy, step: Step, id: Id, deadline: Time)
    requires Sound(w) && id in w.txs && w.txs[id].tx.failure != FailureCode.ReferenceNotFound
    requires w.txs[id].tx.ident.createdAt + policy.maxAge == deadline
    requires step.Resolve? && step.id == id ==> step.now < deadline
    ensures var w' := After(w, policy, step);
            && id in w'.txs && w'.txs[id].tx.failure != FailureCode.ReferenceNotFound
            && w'.txs[id].tx.ident == w.txs[id].tx.ident
  {
    hide Sound, After, Changes, TerminalKept;
    StepChanges(w, policy, step);
    var w' := After(w, policy, step);
    var c :| Changes(w, w', c);
    ChangesExtend(w, w', c);
    ChangesKeepTerminal(w, w', c);
    RowStatuses(w, id);
    if w.txs[id].tx.status.PendingReference? {
      if step.Resolve? && step.id == id {
        if step.commits {
          assert step == Resolve(id, step.now, true);
          NotFoundExactly(w, policy, id, step.now);
        } else {
          FailedAttemptsAreNothing(w, policy, step);
        }
      } else {
        OthersLeaveItAlone(w, policy, step, id);
      }
    } else {
      EndedStays(w.txs, w'.txs, id);
    }
  }

  lemma FailedAttemptsAreNothing(w: World, policy: RetryPolicy, step: Step)
    requires step.Resolve? && !step.commits
    ensures After(w, policy, step) == w
  {
    hide Attempt;
  }

  lemma EndedStays(txs: map<Id, TxRow>, txs': map<Id, TxRow>, id: Id)
    requires TerminalKept(txs, txs') && id in txs && IsTerminal(txs[id].tx.status)
    ensures id in txs' && txs'[id].tx == txs[id].tx
  {
  }

  /**
   * A command that was accepted at step n is not given up as not found by any attempts made before it is as old as
   * the maximum age, counted from the time it was submitted.
   */
  lemma {:induction false} NotGivenUpEarly(policy: RetryPolicy, steps: seq<Step>, n: nat, cmd: Command)
    requires n < |steps| && steps[n] == Submit(cmd, true)
    requires var first := Execute(Run(policy, steps[..n]), cmd); first.Ok? && !first.value.1.replay
    requires AttemptsBefore(steps, n + 1, Execute(Run(policy, steps[..n]), cmd).value.1.transactionID,
                            cmd.now + policy.maxAge)
    ensures var w, id := Run(policy, steps), Execute(Run(policy, steps[..n]), cmd).value.1.transactionID;
            && id in w.txs && w.txs[id].tx.failure != FailureCode.ReferenceNotFound
            && w.txs[id].tx.ident.createdAt == cmd.now
    decreases |steps|
  {
    hide Run, Execute, Sound, After, CanonicalPayload;
    var w0 := Run(policy, steps[..n]);
    var m := |steps| - 1;
    var id := Execute(w0, cmd).value.1.transactionID;
    RunIsSound(policy, steps[..n]);
    FirstSuccessTranscribes(w0, cmd);
    if n == m {
      assert steps[..n + 1] == steps;
      AfterCommit(policy, steps, n, cmd);
      NewIsNotGivenUp(w0, cmd);
    } else {
      assert steps[..m][..n] == steps[..n] && steps == steps[..m] + [steps[m]];
      NotGivenUpEarly(policy, steps[..m], n, cmd);
      RunIsSound(policy, steps[..m]);
      RunAppends(policy, steps[..m], steps[m]);
      StepKeepsPatience(Run(policy, steps[..m]), policy, steps[m], id, cmd.now + policy.maxAge);
    }
  }

  lemma RefusalIsStored(w: World, t: Tx, code: FailureCode, now: Time)
    requires InHand(w, t) && code != NoCode
    ensures var r := Refuse(w, t, code, now);
            r.Ok? && t.ident.id in r.value.0.txs && r.value.0.txs[t.ident.id].tx.failure == code
  {
    RefuseEffect(w, t, code, now);
  }

  /** No run depends on the attempt budget. */
  lemma {:induction false} BudgetIsIgnored(policy: RetryPolicy, budget: int, steps: seq<Step>)
    ensures Run(policy.(maxAttempts := budget), steps) == Run(policy, steps)
  {
    hide Open, Execute, Reverse, Refuse, RecordAttempt, Due;
    if steps != [] {
      BudgetIsIgnored(policy, budget, steps[..|steps| - 1]);
    }
  }

  // ---- the SQL listing ----

  /** The condition of the SQL query: a row that was never scheduled has no retry time, and NULL compares to nothing. */
  predicate ListedBySql(row: TxRow, now: Time) {
    row.tx.status.PendingReference? && row.retryAt.Some? && row.retryAt.value <= now
  }

  /** Every attempt is made on a row that the SQL query lists at that moment. */
  ghost predicate OnlySqlListed(policy: RetryPolicy, steps: seq<Step>) {
    steps != [] ==>
      var m := |steps| - 1;
      OnlySqlListed(policy, steps[..m]) && SqlListed(Run(policy, steps[..m]), steps[m])
  }

  ghost predicate SqlListed(w: World, step: Step) {
    step.Resolve? ==> step.id in w.txs && ListedBySql(w.txs[step.id], step.now)
  }

  ghost predicate NeverScheduled(txs: map<Id, TxRow>) {
    forall id :: id in txs ==> txs[id].retryAt.None?
  }

  lemma NothingScheduled(w: World, w': World, c: Change)
    requires Sound(w) && NeverScheduled(w.txs) && Changes(w, w', c) && (c.Rescheduled? ==> c.id !in w.txs)
    ensures NeverScheduled(w'.txs)
  {
    hide Sound, Justified, Carried, AnnouncedMove, AnnouncedNote, Told, SawBalance, Writable, Unmoved;
  }

  /** Only the resolver schedules. */
  lemma OthersScheduleNothing(w: World, policy: RetryPolicy, step: Step)
    requires Sound(w) && NeverScheduled(w.txs) && !step.Resolve?
    ensures NeverScheduled(After(w, policy, step).txs)
  {
    hide Open, Execute, Changes, Sound, NeverScheduled;
    var w' := After(w, policy, step);
    if w' != w {
      match step
      case OpenWallet(cmd, commits) =>
        OpenEffect(w, cmd);
        var c :| Changes(w, w', c) && (c.Opened? || c.Credited?);
        NothingScheduled(w, w', c);
      case Submit(cmd, commits) =>
        ExecuteEffect(w, cmd);
        var c :| Changes(w, w', c) && (c.Quiet? || About(c, w.next));
        UnusedIdentifier(w, w.next);
        NothingScheduled(w, w', c);
    }
  }

  /**
   * Parking leaves the retry time unset, the SQL query lists only rows with one, and only an attempt sets it. So a
   * resolver fed by that query never attempts anything, and the query never lists a row, in any run whatsoever.
   */
  lemma {:induction false} SqlListsNothing(policy: RetryPolicy, steps: seq<Step>)
    requires OnlySqlListed(policy, steps)
    ensures forall k :: 0 <= k < |steps| ==> !steps[k].Resolve?
    ensures NeverScheduled(Run(policy, steps).txs)
    ensures forall id, now :: id in Run(policy, steps).txs ==> !ListedBySql(Run(policy, steps).txs[id], now)
  {
    hide After, Sound;
    if steps != [] {
      var m := |steps| - 1;
      SqlListsNothing(policy, steps[..m]);
      RunIsSound(policy, steps[..m]);
      assert !steps[m].Resolve? by {
        assert SqlListed(Run(policy, steps[..m]), steps[m]);
      }
      OthersScheduleNothing(Run(policy, steps[..m]), policy, steps[m]);
      assert forall k :: 0 <= k < m ==> steps[k] == steps[..m][k];
    }
  }
}
