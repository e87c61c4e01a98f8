/** A poll of the resolver is a stretch of a serial run, so every property of runs holds across polls. */
module Polling {
  import opened Prelude
  import opened WagerDomain
  import opened Store
  import opened Engine
  import opened Runs

  /** What listing the due rows returns: stored parked rows that are due, each once. */
  ghost predicate Listed(w: World, due: seq<Tx>, now: Time) {
    && (forall i :: 0 <= i < |due| ==> due[i].ident.id in w.txs && due[i] == w.txs[due[i].ident.id].tx
                                       && Due(w.txs[due[i].ident.id], now))
    && (forall i, j :: 0 <= i < j < |due| ==> due[i].ident.id != due[j].ident.id)
  }

  /** The attempts of a poll that took effect, as steps; one whose commit was not heard of is the last. */
  ghost function PollSteps(w: World, policy: RetryPolicy, due: seq<Tx>, now: Time, commits: Id -> CommitResult):
    seq<Step>
    decreases |due|
  {
    if due == [] || Attempt(w, policy, due[0], now).Err? || commits(due[0].ident.id).Undone? then []
    else
      [Resolve(due[0].ident.id, now, true)]
      + if commits(due[0].ident.id).Unheard? then []
        else PollSteps(Attempt(w, policy, due[0], now).value.0, policy, due[1..], now, commits)
  }

  /** An attempt on one row leaves the others as they were listed. */
  lemma StillListed(w: World, policy: RetryPolicy, due: seq<Tx>, now: Time)
    requires Sound(w) && Listed(w, due, now) && due != [] && Attempt(w, policy, due[0], now).Ok?
    ensures Listed(Attempt(w, policy, due[0], now).value.0, due[1..], now)
  {
    hide Attempt, UniqueKeys, RowSound, Justified, Carried, AnnouncedMove, AnnouncedNote, Writable, Unmoved;
    var id := due[0].ident.id;
    AttemptEffect(w, policy, id, now);
    var w' := Attempt(w, policy, due[0], now).value.0;
    var c :| Changes(w, w', c) && About(c, id);
    forall i | 0 <= i < |due[1..]|
      ensures due[1..][i].ident.id in w'.txs && w'.txs[due[1..][i].ident.id] == w.txs[due[1..][i].ident.id]
    {
      assert due[1..][i] == due[i + 1];
    }
  }

  /**
   * Polling after a run, with commits failing or going unheard as they like, leaves the tables of a longer run: its
   * effective attempts, one step each, in the order of the listing.
   */
  lemma {:induction false} PollIsRun(policy: RetryPolicy, steps: seq<Step>, due: seq<Tx>, now: Time,
                                     commits: Id -> CommitResult)
    requires Listed(Run(policy, steps), due, now)
    ensures var w := Run(policy, steps);
            Poll(w, policy, due, now, commits).world == Run(policy, steps + PollSteps(w, policy, due, now, commits))
    decreases |due|
  {
    hide Run, Attempt, Sound, Due;
    var w := Run(policy, steps);
    var more := PollSteps(w, policy, due, now, commits);
    if more == [] {
      assert steps + more == steps;
    } else {
      var step := Resolve(due[0].ident.id, now, true);
      RunIsSound(policy, steps);
      StillListed(w, policy, due, now);
      RunAppends(policy, steps, step);
      if commits(due[0].ident.id).Confirmed? {
        PollIsRun(policy, steps + [step], due[1..], now, commits);
        assert steps + more == steps + [step] + more[1..];
      } else {
        assert more == [step];
      }
    }
  }

  // ---- what a poll reports ----

  /** How many of the rows listed have ended. */
  function Ended(txs: map<Id, TxRow>, due: seq<Tx>): nat {
    if due == [] then 0
    else
      var id := due[0].ident.id;
      (if id in txs && IsTerminal(txs[id].tx.status) then 1 else 0) + Ended(txs, due[1..])
  }

  /** How many of the rows listed are still parked. */
  function Waiting(txs: map<Id, TxRow>, due: seq<Tx>): nat {
    if due == [] then 0
    else
      var id := due[0].ident.id;
      (if id in txs && txs[id].tx.status.PendingReference? then 1 else 0) + Waiting(txs, due[1..])
  }

  /** One committed attempt on each of the rows listed, in their order. */
  function Attempts(due: seq<Tx>, now: Time): seq<Step> {
    if due == [] then [] else [Resolve(due[0].ident.id, now, true)] + Attempts(due[1..], now)
  }

  /** The attempt on `t` stopped the poll: it failed, or its commit did, whether or not that took effect. */
  ghost predicate StoppedAt(policy: RetryPolicy, before: World, t: Tx, now: Time, commit: CommitResult, r: Polled) {
    match Attempt(before, policy, t, now)
    case Err(e) => r.error == Some(e) && r.world == before
    case Ok(done) => && !commit.Confirmed? && r.error == Some(CommitFailed)
                     && r.world == if commit.Unheard? then done.0 else before
  }

  /** A resolved row has ended, a rescheduled one is still parked, and the others are as they were. */
  lemma AttemptTells(w: World, policy: RetryPolicy, id: Id, now: Time)
    requires Sound(w) && id in w.txs && w.txs[id].tx.status.PendingReference?
    requires Attempt(w, policy, w.txs[id].tx, now).Ok?
    ensures var (w', resolved) := Attempt(w, policy, w.txs[id].tx, now).value;
            && w'.txs.Keys == w.txs.Keys && (forall j :: j in w.txs && j != id ==> w'.txs[j] == w.txs[j])
            && if resolved then IsTerminal(w'.txs[id].tx.status) else w'.txs[id].tx.status.PendingReference?
  {
    hide Attempt, UniqueKeys, RowSound, Justified, Carried, AnnouncedMove, AnnouncedNote, Writable, Unmoved;
    AttemptEffect(w, policy, id, now);
  }

  /** A poll leaves the rows alone that it did not list. */
  lemma {:induction false} PollSparesOthers(policy: RetryPolicy, steps: seq<Step>, due: seq<Tx>, now: Time,
                                            commits: Id -> CommitResult, id: Id)
    requires Listed(Run(policy, steps), due, now) && id in Run(policy, steps).txs
    requires forall i :: 0 <= i < |due| ==> due[i].ident.id != id
    ensures var w' := Poll(Run(policy, steps), policy, due, now, commits).world;
            id in w'.txs && w'.txs[id] == Run(policy, steps).txs[id]
    decreases |due|
  {
    hide Run, Attempt, Sound;
    var w := Run(policy, steps);
    if due != [] && Attempt(w, policy, due[0], now).Ok? {
      var step := Resolve(due[0].ident.id, now, true);
      RunIsSound(policy, steps);
      StillListed(w, policy, due, now);
      AttemptTells(w, policy, due[0].ident.id, now);
      RunAppends(policy, steps, step);
      if commits(due[0].ident.id).Confirmed? {
        PollSparesOthers(policy, steps + [step], due[1..], now, commits, id);
      }
    }
  }

  /**
   * The counts are true of the tables the poll leaves: of the first rows listed, each of whose attempts was confirmed,
   * as many have ended as it calls resolved, and as many are still parked as it calls rescheduled. There is no error
   * exactly when these are all the rows; otherwise the next attempt, on the tables that those before it leave, is what
   * failed.
   */
  ghost predicate Accounts(policy: RetryPolicy, steps: seq<Step>, due: seq<Tx>, now: Time, commits: Id -> CommitResult,
                           r: Polled)
  {
    var k := r.resolved + r.rescheduled;
    && k <= |due| && (forall i :: 0 <= i < k ==> commits(due[i].ident.id).Confirmed?)
    && r.resolved == Ended(r.world.txs, due[..k]) && r.rescheduled == Waiting(r.world.txs, due[..k])
    && var before := Run(policy, steps + Attempts(due[..k], now));
       if k == |due| then r.error.None? && r.world == before
       else StoppedAt(policy, before, due[k], now, commits(due[k].ident.id), r)
  }

  /** What a poll reports accounts for what it did. */
  lemma {:induction false} PollReports(policy: RetryPolicy, steps: seq<Step>, due: seq<Tx>, now: Time,
                                       commits: Id -> CommitResult)
    requires Listed(Run(policy, steps), due, now)
    ensures Accounts(policy, steps, due, now, commits, Poll(Run(policy, steps), policy, due, now, commits))
    decreases |due|
  {
    hide Run, Attempt, Sound;
    var w := Run(policy, steps);
    assert steps + [] == steps;
    if due != [] && Attempt(w, policy, due[0], now).Ok? && commits(due[0].ident.id).Confirmed? {
      hide Accounts, After;
      var id := due[0].ident.id;
      RunIsSound(policy, steps);
      StillListed(w, policy, due, now);
      AttemptTells(w, policy, id, now);
      var next := steps + [Resolve(id, now, true)];
      RunAppends(policy, steps, Resolve(id, now, true));
      assert Run(policy, next) == Attempt(w, policy, due[0], now).value.0;
      PollReports(policy, next, due[1..], now, commits);
      PollSparesOthers(policy, next, due[1..], now, commits, id);
      OneMore(policy, steps, due, now, commits, Poll(Run(policy, next), policy, due[1..], now, commits),
              Attempt(w, policy, due[0], now).value.1);
    }
  }

  /** A poll that accounts for all rows but the first accounts for that one if it counts it as what it has become. */
  lemma OneMore(policy: RetryPolicy, steps: seq<Step>, due: seq<Tx>, now: Time, commits: Id -> CommitResult, r: Polled,
                resolved: bool)
    requires due != [] && commits(due[0].ident.id).Confirmed? && due[0].ident.id in r.world.txs
    requires var status := r.world.txs[due[0].ident.id].tx.status;
             if resolved then IsTerminal(status) else status.PendingReference?
    requires Accounts(policy, steps + [Resolve(due[0].ident.id, now, true)], due[1..], now, commits, r)
    ensures Accounts(policy, steps, due, now, commits,
                     if resolved then r.(resolved := r.resolved + 1) else r.(rescheduled := r.rescheduled + 1))
  {
    hide Run, Attempt;
    var k := r.resolved + r.rescheduled;
    assert due[..k + 1][1..] == due[1..][..k];
    assert steps + Attempts(due[..k + 1], now)
        == steps + [Resolve(due[0].ident.id, now, true)] + Attempts(due[1..][..k], now);
  }
}
