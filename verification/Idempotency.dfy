/**
 * Exactly-once effect: whatever mixture of retries, redeliveries, rolled-back attempts and other commands follows a
 * successful command, it has one row and at most one ledger entry, and running it again replays its result.
 */
module Idempotency {
  import opened Prelude
  import opened Int64
  import opened MoneyDomain
  import opened WalletDomain
  import opened WagerDomain
  import opened Store
  import opened Engine
  import opened Runs
  import opened References
  import Ledger = LedgerDomain

  ghost predicate HasHash(txs: map<Id, TxRow>, hash: Payload) {
    exists id :: id in txs && txs[id].tx.ident.hash == Some(hash)
  }

  /** Committed inbox records are complete, and a transaction with their payload is stored. */
  ghost predicate InboxBacked(w: World) {
    forall k :: k in w.inbox ==> w.inbox[k].completedAt.Some? && HasHash(w.txs, w.inbox[k].hash)
  }

  /** Processing a command leaves a row that carries its payload. */
  lemma ProcessStoresHash(w: World, cmd: Command)
    requires Sound(w) && Process(w, cmd).Ok?
    ensures HasHash(Process(w, cmd).value.0.txs, CanonicalPayload(cmd))
    ensures Extends(w.txs, Process(w, cmd).value.0.txs)
  {
    hide Create, Changes, Sound;
    var byKey := FindKey(w.txs, cmd.providerID, cmd.key);
    if byKey.Some? {
      assert w.txs[byKey.value].tx.ident.hash == Some(CanonicalPayload(cmd));
    } else {
      CreateEffect(w, cmd);
      var (w', t) := Create(w, cmd).value;
      var c :| Changes(w, w', c) && Leaves(c, t);
      ChangesExtend(w, w', c);
      LeftBehind(w, w', c, t);
      assert w'.txs[t.ident.id].tx.ident.hash == Some(CanonicalPayload(cmd));
    }
  }

  lemma ProcessKeepsInbox(w: World, cmd: Command)
    requires Sound(w) && Process(w, cmd).Ok?
    ensures Process(w, cmd).value.0.inbox == w.inbox
  {
    hide Process, Sound, Changes;
    ProcessEffect(w, cmd);
  }

  lemma LeftBehind(w: World, w': World, c: Change, t: Tx)
    requires Changes(w, w', c) && Leaves(c, t)
    ensures t.ident.id in w'.txs && w'.txs[t.ident.id].tx == Persisted(t)
    ensures c.Booked? ==> Persisted(t) == t
  {
    hide Writable, Justified, AnnouncedMove, AnnouncedNote;
  }

  lemma BackedPreserved(w: World, policy: RetryPolicy, step: Step)
    requires Sound(w) && InboxBacked(w)
    ensures InboxBacked(After(w, policy, step))
  {
    hide Open, Attempt, Process, Sound, Changes, Due;
    var w' := After(w, policy, step);
    StepChanges(w, policy, step);
    var c :| Changes(w, w', c);
    ChangesExtend(w, w', c);
    match step
    case OpenWallet(cmd, commits) =>
      if Open(w, cmd).Ok? {
        OpenEffect(w, cmd);
      }
      HashesKept(w, w');
    case Resolve(id, now, commits) =>
      if id in w.txs && Due(w.txs[id], now) && Attempt(w, policy, w.txs[id].tx, now).Ok? {
        ResolveKeepsInbox(w, policy, id, now);
      }
      HashesKept(w, w');
    case Submit(cmd, commits) =>
      if Execute(w, cmd).Ok? && commits {
        SubmitBacked(w, cmd);
      }
  }

  lemma ResolveKeepsInbox(w: World, policy: RetryPolicy, id: Id, now: Time)
    requires Sound(w) && id in w.txs && Due(w.txs[id], now) && Attempt(w, policy, w.txs[id].tx, now).Ok?
    ensures Attempt(w, policy, w.txs[id].tx, now).value.0.inbox == w.inbox
  {
    hide Attempt, Changes, Sound;
    AttemptEffect(w, policy, id, now);
  }

  lemma HashesKept(w: World, w': World)
    requires InboxBacked(w) && Extends(w.txs, w'.txs) && w'.inbox == w.inbox
    ensures InboxBacked(w')
  {
    forall k | k in w'.inbox
      ensures HasHash(w'.txs, w'.inbox[k].hash)
    {
      var id :| id in w.txs && w.txs[id].tx.ident.hash == Some(w.inbox[k].hash);
      assert w'.txs[id].tx.ident.hash == Some(w.inbox[k].hash);
    }
  }

  lemma SubmitBacked(w: World, cmd: Command)
    requires Sound(w) && InboxBacked(w) && Execute(w, cmd).Ok?
    ensures InboxBacked(Execute(w, cmd).value.0)
  {
    hide Process, Changes, Sound;
    var w' := Execute(w, cmd).value.0;
    var w1 := Entered(w, cmd);
    EnteredIsSound(w, cmd);
    if Process(w1, cmd).Ok? {
      ProcessStoresHash(w1, cmd);
      ProcessEffect(w1, cmd);
      var done := Process(w1, cmd).value.0;
      forall k | k in w.inbox
        ensures HasHash(done.txs, w.inbox[k].hash)
      {
        var id :| id in w.txs && w.txs[id].tx.ident.hash == Some(w.inbox[k].hash);
        assert done.txs[id].tx.ident.hash == Some(w.inbox[k].hash);
      }
    }
  }

  /** The tables once the inbox has let a command through. */
  ghost function Entered(w: World, cmd: Command): World {
    if cmd.inbox.Some? && cmd.inbox.value !in w.inbox
    then w.(inbox := w.inbox[cmd.inbox.value := InboxRecord(CanonicalPayload(cmd), cmd.now, None)])
    else w
  }

  lemma EnteredIsSound(w: World, cmd: Command)
    requires Sound(w)
    ensures Sound(Entered(w, cmd))
  {
  }

  lemma {:induction false} RunIsBacked(policy: RetryPolicy, steps: seq<Step>)
    ensures InboxBacked(Run(policy, steps))
  {
    if steps != [] {
      hide InboxBacked, Sound, After;
      var w := Run(policy, steps[..|steps| - 1]);
      RunIsBacked(policy, steps[..|steps| - 1]);
      RunIsSound(policy, steps[..|steps| - 1]);
      BackedPreserved(w, policy, steps[|steps| - 1]);
    }
  }

  // ---- the tables agree ----

  /** No two rows match the same key or the same external id of a provider. */
  ghost predicate Unambiguous(txs: map<Id, TxRow>, provider: string, external: string, key: string) {
    forall i, j :: i in txs && j in txs && i != j ==>
                     && !(HasKey(txs[i].tx, provider, key) && HasKey(txs[j].tx, provider, key))
                     && !(HasExternal(txs[i].tx, provider, external) && HasExternal(txs[j].tx, provider, external))
  }

  /**
   * On the tables of any run the two lookups of a provider each match at most one row, they name the same row when
   * the external id's row carries the key, and every inbox record is complete and backed by a row with its payload.
   */
  lemma LookupsAgree(policy: RetryPolicy, steps: seq<Step>, provider: string, external: string, key: string)
    ensures var w := Run(policy, steps);
            && InboxBacked(w) && Unambiguous(w.txs, provider, external, key)
            && (var e := FindExternal(w.txs, provider, external);
                e.Some? && key != "" && w.txs[e.value].tx.ident.key == key ==> FindKey(w.txs, provider, key) == e)
  {
    hide Run, RowSound, InboxBacked;
    RunIsSound(policy, steps);
    RunIsBacked(policy, steps);
    UniqueMatches(Run(policy, steps).txs, provider, external, key);
  }

  lemma UniqueMatches(txs: map<Id, TxRow>, provider: string, external: string, key: string)
    requires UniqueKeys(txs)
    ensures Unambiguous(txs, provider, external, key)
  {
    forall i, j | i in txs && j in txs && i != j
      ensures !(HasKey(txs[i].tx, provider, key) && HasKey(txs[j].tx, provider, key))
      ensures !(HasExternal(txs[i].tx, provider, external) && HasExternal(txs[j].tx, provider, external))
    {
      assert !SameKey(txs[i].tx, txs[j].tx) && !SameExternal(txs[i].tx, txs[j].tx);
    }
  }

  /** Row `id` has the command's key with another payload, or its external id under another key. */
  predicate Reuses(txs: map<Id, TxRow>, id: Id, cmd: Command) {
    && id in txs
    && ((HasKey(txs[id].tx, cmd.providerID, cmd.key) && txs[id].tx.ident.hash != Some(CanonicalPayload(cmd)))
        || (HasExternal(txs[id].tx, cmd.providerID, cmd.externalID) && txs[id].tx.ident.key != cmd.key))
  }

  /** The command comes in a message that was handled before with the same payload; the key is not part of it. */
  predicate MessageSeen(w: World, cmd: Command) {
    cmd.inbox.Some? && cmd.inbox.value in w.inbox && w.inbox[cmd.inbox.value].hash == CanonicalPayload(cmd)
  }

  /** A row has the command's external id under another key. */
  ghost predicate UnderAnotherKey(txs: map<Id, TxRow>, cmd: Command) {
    exists id :: id in txs && HasExternal(txs[id].tx, cmd.providerID, cmd.externalID) && txs[id].tx.ident.key != cmd.key
  }

  /**
   * Reusing a key for another payload, or an external id under another key, never changes a table, and is refused
   * unless the message was seen before: as a mismatch if the external id has another key, else as a reused key, which
   * is also what a message gets whose identifier came with another payload. If the message was seen, the key alone is
   * looked up, so the call succeeds, with the result of whatever transaction has that key, exactly when there is one.
   */
  lemma ReuseIsRefused(policy: RetryPolicy, steps: seq<Step>, cmd: Command, id: Id, commits: bool)
    requires Reuses(Run(policy, steps).txs, id, cmd)
    ensures var w := Run(policy, steps);
            && After(w, policy, Submit(cmd, commits)) == w
            && (if MessageSeen(w, cmd) then
                  var found := FindKey(w.txs, cmd.providerID, cmd.key);
                  Execute(w, cmd) == if found.Some? then Ok((w, ResultOf(w.txs[found.value].tx, true)))
                                     else Err(NotFound)
                else
                  Execute(w, cmd) == Err(if UnderAnotherKey(w.txs, cmd) && !InboxClash(w, cmd)
                                         then ExternalTransactionKeyMismatch else IdempotencyKeyReused))
  {
    hide Run, Execute, Reuses, UnderAnotherKey, InboxClash, MessageSeen, InboxBacked, Unambiguous;
    LookupsAgree(policy, steps, cmd.providerID, cmd.externalID, cmd.key);
    ReuseOnTables(Run(policy, steps), id, cmd);
  }

  lemma ReuseOnTables(w: World, id: Id, cmd: Command)
    requires Reuses(w.txs, id, cmd) && InboxBacked(w)
    requires Unambiguous(w.txs, cmd.providerID, cmd.externalID, cmd.key)
    ensures if MessageSeen(w, cmd) then
              var found := FindKey(w.txs, cmd.providerID, cmd.key);
              Execute(w, cmd) == if found.Some? then Ok((w, ResultOf(w.txs[found.value].tx, true))) else Err(NotFound)
            else
              Execute(w, cmd) == Err(if UnderAnotherKey(w.txs, cmd) && !InboxClash(w, cmd)
                                     then ExternalTransactionKeyMismatch else IdempotencyKeyReused)
  {
    hide Process, CanonicalPayload, Reuses, UnderAnotherKey, Unambiguous, HasHash;
    ProcessRefusesReuse(Entered(w, cmd), id, cmd);
  }

  lemma ProcessRefusesReuse(w: World, id: Id, cmd: Command)
    requires Reuses(w.txs, id, cmd)
    requires Unambiguous(w.txs, cmd.providerID, cmd.externalID, cmd.key)
    ensures Process(w, cmd)
            == Err(if UnderAnotherKey(w.txs, cmd) then ExternalTransactionKeyMismatch else IdempotencyKeyReused)
  {
    hide Create, CanonicalPayload;
    if HasKey(w.txs[id].tx, cmd.providerID, cmd.key) {
      assert FindKey(w.txs, cmd.providerID, cmd.key) == Some(id);
    } else {
      assert FindExternal(w.txs, cmd.providerID, cmd.externalID) == Some(id);
    }
    if UnderAnotherKey(w.txs, cmd) {
      var j :| && j in w.txs && HasExternal(w.txs[j].tx, cmd.providerID, cmd.externalID)
               && w.txs[j].tx.ident.key != cmd.key;
      assert FindExternal(w.txs, cmd.providerID, cmd.externalID) == Some(j);
    }
  }

  /** Two commands have the same payload exactly when they ask for the same thing, key, time and message aside. */
  lemma PayloadIdentifies(a: Command, b: Command)
    ensures CanonicalPayload(a) == CanonicalPayload(b)
            <==> b == a.(key := b.key, now := b.now, inbox := b.inbox)
  {
    StringInjective(a.amount, b.amount);
  }

  // ---- exactly once ----

  /** The same command arriving again, at any time, over HTTP or in any message. */
  predicate SameCommand(cmd: Command, again: Command) {
    again == cmd.(now := again.now, inbox := again.inbox)
  }

  /** The row `id` is the command's: it is found by its key and its external id, and carries its payload. */
  ghost predicate Owns(txs: map<Id, TxRow>, id: Id, cmd: Command) {
    && id in txs && txs[id].tx.ident.id == id && txs[id].tx.ident.hash == Some(CanonicalPayload(cmd))
    && HasKey(txs[id].tx, cmd.providerID, cmd.key) && HasExternal(txs[id].tx, cmd.providerID, cmd.externalID)
    && Records(txs[id].tx.ident, cmd)
  }

  /** What the row says of the operation is what the command said. */
  predicate Records(p: Ident, cmd: Command) {
    && p.playerID == cmd.playerID && p.walletID == cmd.walletID && p.roundID == cmd.roundID && p.gameID == cmd.gameID
    && p.kind == cmd.kind && p.money == cmd.amount && p.reference == cmd.reference
  }

  /** The row's identity says what the command said, field by field, and when. */
  predicate Transcribes(p: Ident, id: Id, cmd: Command) {
    && p.id == id && p.providerID == cmd.providerID && p.externalID == cmd.externalID && p.key == cmd.key
    && p.hash == Some(Payload(cmd.providerID, cmd.externalID, cmd.playerID, cmd.walletID, cmd.roundID, cmd.gameID,
                              cmd.kind, String(cmd.amount), cmd.amount.currency, cmd.reference))
    && Records(p, cmd) && p.createdAt == cmd.now
  }

  ghost predicate OwnsAlone(txs: map<Id, TxRow>, id: Id, cmd: Command) {
    forall j :: j in txs && j != id ==> !HasKey(txs[j].tx, cmd.providerID, cmd.key)
                                        && !HasExternal(txs[j].tx, cmd.providerID, cmd.externalID)
  }

  predicate AtMostOneEntry(ledger: seq<Ledger.Entry>, id: Id) {
    forall i, j :: 0 <= i < j < |ledger| ==> ledger[i].transactionID != id || ledger[j].transactionID != id
  }

  /** The broker message of `cmd` was seen before with another payload. */
  predicate InboxClash(w: World, cmd: Command) {
    cmd.inbox.Some? && cmd.inbox.value in w.inbox && w.inbox[cmd.inbox.value].hash != CanonicalPayload(cmd)
  }

  /** A message that was received but never completed is processed like any other, and then it is complete. */
  lemma UnfinishedIsProcessed(w: World, cmd: Command, k: InboxKey)
    requires cmd.inbox == Some(k) && k in w.inbox && w.inbox[k].completedAt.None?
    requires w.inbox[k].hash == CanonicalPayload(cmd) && Sound(w)
    ensures match Process(w, cmd)
            case Err(e) => Execute(w, cmd) == Err(e)
            case Ok(done) =>
              && Execute(w, cmd).Ok? && Execute(w, cmd).value.1 == done.1
              && Execute(w, cmd).value.0
                 == done.0.(inbox := w.inbox[k := w.inbox[k].(completedAt := Some(cmd.now))])
  {
    hide Process, Sound, CanonicalPayload;
    if Process(w, cmd).Ok? {
      ProcessKeepsInbox(w, cmd);
    }
  }

  /** A command that owns a row is replayed; only the inbox can change. */
  lemma OwnedIsReplayed(w: World, id: Id, cmd: Command)
    requires UniqueKeys(w.txs) && InboxBacked(w) && Owns(w.txs, id, cmd)
    ensures var r := Execute(w, cmd);
            if InboxClash(w, cmd) then r == Err(IdempotencyKeyReused)
            else r.Ok? && r.value.1 == ResultOf(w.txs[id].tx, true) && r.value.0 == w.(inbox := r.value.0.inbox)
                 && (cmd.inbox.None? ==> r.value.0 == w)
  {
    hide Create;
    UniqueMatches(w.txs, cmd.providerID, cmd.externalID, cmd.key);
    assert FindKey(w.txs, cmd.providerID, cmd.key) == Some(id);
    assert FindExternal(w.txs, cmd.providerID, cmd.externalID) == Some(id);
    var w1 := Entered(w, cmd);
    assert Process(w1, cmd) == Ok((w1, ResultOf(w.txs[id].tx, true)));
    hide Process;
  }

  /** The command owns the row that `r` reports, and `r` is what that row says. */
  ghost predicate AnsweredBy(txs: map<Id, TxRow>, r: ProcessResult, cmd: Command) {
    && Owns(txs, r.transactionID, cmd)
    && exists t :: txs[r.transactionID].tx == Persisted(t) && r == ResultOf(t, false)
                   && t.ident.money == cmd.amount && (IsTerminal(t.status) || t.status.PendingReference?)
  }

  lemma ProcessOwns(w: World, cmd: Command)
    requires Sound(w) && Process(w, cmd).Ok? && !Process(w, cmd).value.1.replay
    ensures AnsweredBy(Process(w, cmd).value.0.txs, Process(w, cmd).value.1, cmd)
  {
    hide Create, Changes, Sound, CanonicalPayload;
    CreateEffect(w, cmd);
    var (done, t) := Create(w, cmd).value;
    var c :| Changes(w, done, c) && Leaves(c, t);
    LeftBehind(w, done, c, t);
    WrittenIsExternal(w, done, c, t);
    assert Process(w, cmd).value == (done, ResultOf(t, false));
  }

  /** The first success of a command gives it its row. */
  lemma FirstSuccessOwns(w: World, cmd: Command)
    requires Sound(w) && Execute(w, cmd).Ok? && !Execute(w, cmd).value.1.replay
    ensures AnsweredBy(Execute(w, cmd).value.0.txs, Execute(w, cmd).value.1, cmd)
  {
    hide Process, Sound, AnsweredBy;
    EnteredIsSound(w, cmd);
    ProcessOwns(Entered(w, cmd), cmd);
  }

  /** Creating adds one row, under an unused identifier, which transcribes the command; no other row changes. */
  lemma CreatedRowTranscribes(w: World, cmd: Command)
    requires Sound(w) && Create(w, cmd).Ok?
    ensures var (w', t) := Create(w, cmd).value;
            && w.next !in w.txs && w'.txs.Keys == w.txs.Keys + {w.next}
            && (forall id :: id in w.txs ==> w'.txs[id] == w.txs[id])
            && Transcribes(w'.txs[w.next].tx.ident, w.next, cmd) && t.ident == w'.txs[w.next].tx.ident
  {
    hide Create, Changes, Sound;
    CreateEffect(w, cmd);
    UnusedIdentifier(w, w.next);
    var (w', t) := Create(w, cmd).value;
    var c :| Changes(w, w', c) && Leaves(c, t);
    LeftBehind(w, w', c, t);
    OthersAreLeft(w, w', c, t);
  }

  lemma OthersAreLeft(w: World, w': World, c: Change, t: Tx)
    requires Changes(w, w', c) && Leaves(c, t)
    ensures w'.txs.Keys == w.txs.Keys + {t.ident.id}
    ensures forall id :: id in w.txs && id != t.ident.id ==> w'.txs[id] == w.txs[id]
  {
    hide Writable, Justified, AnnouncedMove, AnnouncedNote, Told, Carried, SawBalance, TellsBalance, Unmoved;
  }

  lemma FirstIsCreated(w: World, cmd: Command)
    requires Execute(w, cmd).Ok? && !Execute(w, cmd).value.1.replay
    ensures var created := Create(Entered(w, cmd), cmd);
            && created.Ok? && Execute(w, cmd).value.1 == ResultOf(created.value.1, false)
            && Execute(w, cmd).value.0 == created.value.0.(inbox := Execute(w, cmd).value.0.inbox)
  {
    hide Create, CanonicalPayload;
  }

  /** The first success of a command adds its row and reports it. */
  lemma FirstSuccessTranscribes(w: World, cmd: Command)
    requires Sound(w) && Execute(w, cmd).Ok? && !Execute(w, cmd).value.1.replay
    ensures var (w', r) := Execute(w, cmd).value;
            && r.transactionID == w.next && w.next !in w.txs && w'.txs.Keys == w.txs.Keys + {w.next}
            && (forall id :: id in w.txs ==> w'.txs[id] == w.txs[id])
            && Transcribes(w'.txs[w.next].tx.ident, w.next, cmd)
  {
    hide Create, Execute, Sound, Transcribes, CanonicalPayload;
    EnteredIsSound(w, cmd);
    FirstIsCreated(w, cmd);
    CreatedRowTranscribes(Entered(w, cmd), cmd);
    TranscribedID(Create(Entered(w, cmd), cmd).value.1.ident, w.next, cmd);
  }

  lemma TranscribedID(p: Ident, id: Id, cmd: Command)
    requires Transcribes(p, id, cmd)
    ensures p.id == id
  {
  }

  /** The answer is what the stored row says, status by status. */
  predicate Honest(txs: map<Id, TxRow>, r: ProcessResult) {
    && r.transactionID in txs
    && var t := txs[r.transactionID].tx;
       && (r.status.ResultProcessed? <==> t.status.Processed?) && (r.status.ResultRejected? <==> t.status.Rejected?)
       && (r.status.ResultPendingReference? <==> t.status.PendingReference?)
       && r.failure == t.failure && r.balance.Some? == t.resulting.Some?
       && (r.balance.Some? ==> r.balance.value.minorUnits == t.resulting.value.minorUnits)
  }

  /** Every answer, first or replayed, over HTTP or from a message, tells what is stored about its transaction. */
  lemma AnswersAreHonest(w: World, cmd: Command)
    requires Sound(w) && Execute(w, cmd).Ok?
    ensures Honest(Execute(w, cmd).value.0.txs, Execute(w, cmd).value.1)
  {
    hide Execute, Sound, Honest, AnsweredBy;
    if Execute(w, cmd).value.1.replay {
      ReplaysAreHonest(w, cmd);
    } else {
      FirstSuccessOwns(w, cmd);
      FirstIsHonest(Execute(w, cmd).value.0.txs, Execute(w, cmd).value.1, cmd);
    }
  }

  lemma FirstIsHonest(txs: map<Id, TxRow>, r: ProcessResult, cmd: Command)
    requires AnsweredBy(txs, r, cmd)
    ensures Honest(txs, r)
  {
    hide CanonicalPayload;
  }

  lemma ReplaysAreHonest(w: World, cmd: Command)
    requires Sound(w) && Execute(w, cmd).Ok? && Execute(w, cmd).value.1.replay
    ensures Honest(Execute(w, cmd).value.0.txs, Execute(w, cmd).value.1)
  {
    hide Create, CanonicalPayload, Sound, Honest, ResultOf;
    var found := FindKey(w.txs, cmd.providerID, cmd.key);
    CreatedIsNoReplay(w, cmd);
    if found.Some? {
      StoredIsHonest(w, found.value);
    }
  }

  /** A replay is answered from the row that has the key, and writes none. */
  lemma CreatedIsNoReplay(w: World, cmd: Command)
    requires Execute(w, cmd).Ok? && Execute(w, cmd).value.1.replay
    ensures var found := FindKey(w.txs, cmd.providerID, cmd.key);
            && found.Some? && Execute(w, cmd).value.1 == ResultOf(w.txs[found.value].tx, true)
            && Execute(w, cmd).value.0.txs == w.txs
  {
    hide Create, CanonicalPayload;
  }

  lemma StoredIsHonest(w: World, id: Id)
    requires Sound(w) && id in w.txs
    ensures Honest(w.txs, ResultOf(w.txs[id].tx, true))
  {
    hide UniqueKeys, RowSound;
  }

  lemma WrittenIsExternal(w: World, w': World, c: Change, t: Tx)
    requires Sound(w) && Changes(w, w', c) && Leaves(c, t)
    ensures ExternalFault(t.ident) == None && (IsTerminal(t.status) || t.status.PendingReference?)
  {
    hide UniqueKeys, Justified, AnnouncedMove, AnnouncedNote, Carried;
    if t.ident.id in w.txs {
      assert RowSound(w.txs[t.ident.id].tx);
    }
  }

  /** Rows survive with their identity, and terminal rows unchanged, over any continuation of a run. */
  lemma {:induction false} RunKeepsRows(policy: RetryPolicy, steps: seq<Step>, n: nat)
    requires n <= |steps|
    ensures var then_, now := Run(policy, steps[..n]).txs, Run(policy, steps).txs;
            Extends(then_, now) && TerminalKept(then_, now)
  {
    hide Sound, Changes, After, Extends, TerminalKept, Run;
    if n == |steps| {
      assert steps[..n] == steps;
      RowsKeepThemselves(Run(policy, steps).txs);
    } else {
      var m := |steps| - 1;
      var w := Run(policy, steps[..m]);
      RunKeepsRows(policy, steps[..m], n);
      assert steps[..m][..n] == steps[..n] && steps == steps[..m] + [steps[m]];
      RunAppends(policy, steps[..m], steps[m]);
      RunIsSound(policy, steps[..m]);
      StepChanges(w, policy, steps[m]);
      var c :| Changes(w, Run(policy, steps), c);
      ChangesExtend(w, Run(policy, steps), c);
      ChangesKeepTerminal(w, Run(policy, steps), c);
      RowsStayKept(Run(policy, steps[..n]).txs, w.txs, Run(policy, steps).txs);
    }
  }

  lemma RowsKeepThemselves(txs: map<Id, TxRow>)
    ensures Extends(txs, txs) && TerminalKept(txs, txs)
  {
  }

  lemma RowsStayKept(a: map<Id, TxRow>, b: map<Id, TxRow>, c: map<Id, TxRow>)
    requires Extends(a, b) && TerminalKept(a, b) && Extends(b, c) && TerminalKept(b, c)
    ensures Extends(a, c) && TerminalKept(a, c)
  {
  }

  lemma AfterCommit(policy: RetryPolicy, steps: seq<Step>, n: nat, cmd: Command)
    requires n < |steps| && steps[n] == Submit(cmd, true) && Execute(Run(policy, steps[..n]), cmd).Ok?
    ensures Run(policy, steps[..n + 1]) == Execute(Run(policy, steps[..n]), cmd).value.0
  {
    hide Execute;
    var upTo := steps[..n + 1];
    assert upTo[..n] == steps[..n] && upTo[n] == steps[n];
  }

  /**
   * Exactly once. Step n of a run commits a command for the first time. However the run goes on, at its end exactly
   * one row carries the command's key or external id, at most one ledger entry refers to it, and the same command
   * arriving again succeeds as a replay of that row and changes nothing but possibly the inbox; it errs only when
   * its message identifier was used for another payload.
   */
  lemma ExactlyOnce(policy: RetryPolicy, steps: seq<Step>, n: nat, cmd: Command, again: Command)
    requires n < |steps| && steps[n] == Submit(cmd, true)
    requires var first := Execute(Run(policy, steps[..n]), cmd); first.Ok? && !first.value.1.replay
    requires SameCommand(cmd, again)
    ensures var id := Execute(Run(policy, steps[..n]), cmd).value.1.transactionID;
            var w := Run(policy, steps);
            && Owns(w.txs, id, cmd) && OwnsAlone(w.txs, id, cmd) && AtMostOneEntry(w.ledger, id)
            && (var r := Execute(w, again);
                if InboxClash(w, again) then r == Err(IdempotencyKeyReused)
                else r.Ok? && r.value.1 == ResultOf(w.txs[id].tx, true)
                     && r.value.0 == w.(inbox := r.value.0.inbox))
  {
    hide Run, Execute, Sound, InboxBacked;
    var w0, w := Run(policy, steps[..n]), Run(policy, steps);
    RunIsSound(policy, steps[..n]);
    FirstSuccessOwns(w0, cmd);
    AfterCommit(policy, steps, n, cmd);
    RunKeepsRows(policy, steps, n + 1);
    var id := Execute(w0, cmd).value.1.transactionID;
    assert Owns(w.txs, id, again);
    SoundIsUnique(policy, steps);
    UniqueMatches(w.txs, cmd.providerID, cmd.externalID, cmd.key);
    RunIsBacked(policy, steps);
    OwnedIsReplayed(w, id, again);
    OneEntry(policy, steps, id);
  }

  lemma SoundIsUnique(policy: RetryPolicy, steps: seq<Step>)
    ensures UniqueKeys(Run(policy, steps).txs)
  {
    hide Run;
    RunIsSound(policy, steps);
  }

  lemma OneEntry(policy: RetryPolicy, steps: seq<Step>, id: Id)
    ensures AtMostOneEntry(Run(policy, steps).ledger, id)
  {
    hide Run, Matched, ReversedOnce;
    RunIsConsistent(policy, steps);
  }

  /** A movement's balance is in the command's currency; a loss tells the wallet's balance in the wallet's own. */
  lemma CreatedInCurrency(w: World, cmd: Command)
    requires Sound(w) && Create(w, cmd).Ok?
    ensures var t := Create(w, cmd).value.1;
            && cmd.walletID in w.wallets
            && (cmd.kind.Loss? ==> t.resulting == Some(w.wallets[cmd.walletID].balance))
            && (!cmd.kind.Loss? && t.resulting.Some? ==> t.resulting.value.currency == cmd.amount.currency)
  {
    if cmd.kind.Loss? {
      LossTellsBalance(w, cmd);
    } else {
      hide Create, Sound, CanonicalPayload, Changes;
      CreateEffect(w, cmd);
      var (w', t) := Create(w, cmd).value;
      var c :| Changes(w, w', c) && Leaves(c, t);
      WrittenInWallet(w, w', c, t);
    }
  }

  lemma WrittenInWallet(w: World, w': World, c: Change, t: Tx)
    requires Sound(w) && Changes(w, w', c) && Leaves(c, t)
    ensures t.ident.walletID in w.wallets
    ensures !t.ident.kind.Loss? && t.resulting.Some? ==> t.resulting.value.currency == t.ident.money.currency
  {
    hide UniqueKeys, RowSound, AnnouncedMove, AnnouncedNote, Justified, Wrote, Told, SawBalance;
  }

  lemma LossTellsBalance(w: World, cmd: Command)
    requires Sound(w) && cmd.kind.Loss? && Create(w, cmd).Ok?
    ensures cmd.walletID in w.wallets
    ensures Create(w, cmd).value.1.resulting == Some(w.wallets[cmd.walletID].balance)
  {
    hide Sound, UpdateTx, CanonicalPayload;
    var p := IdentOf(cmd, w.next);
    InsertEffect(w, p);
    hide InsertTx;
  }

  /** The currency of a first answer, from the tables before the call. */
  lemma AnswerInCurrency(w: World, cmd: Command)
    requires Sound(w) && Execute(w, cmd).Ok? && !Execute(w, cmd).value.1.replay
    ensures var r := Execute(w, cmd).value.1;
            && cmd.walletID in w.wallets
            && (cmd.kind.Loss? ==> r.balance == Some(w.wallets[cmd.walletID].balance))
            && (!cmd.kind.Loss? && r.balance.Some? ==> r.balance.value.currency == cmd.amount.currency)
  {
    hide Create, Sound, CanonicalPayload;
    EnteredIsSound(w, cmd);
    CreatedInCurrency(Entered(w, cmd), cmd);
  }

  /**
   * A command that ended at once is replayed with what the first call told, except that the balance is in the
   * command's currency. So the replay is the very same answer exactly when a command answered as waiting still waits,
   * and a loss was sent in the currency of its wallet.
   */
  lemma ReplayTellsTheSame(policy: RetryPolicy, steps: seq<Step>, n: nat, cmd: Command)
    requires n < |steps| && steps[n] == Submit(cmd, true)
    requires var first := Execute(Run(policy, steps[..n]), cmd); first.Ok? && !first.value.1.replay
    ensures var r := Execute(Run(policy, steps[..n]), cmd).value.1;
            var w0, w := Run(policy, steps[..n]), Run(policy, steps);
            r.transactionID in w.txs && cmd.walletID in w0.wallets
            && var q := ResultOf(w.txs[r.transactionID].tx, true);
               && q.transactionID == r.transactionID
               && (!r.status.ResultPendingReference? ==>
                     && q.status == r.status && q.failure == r.failure && q.balance.Some? == r.balance.Some?
                     && (r.balance.Some? ==> q.balance.value.minorUnits == r.balance.value.minorUnits))
               && (q == r.(replay := true)
                   <==> && (r.status.ResultPendingReference? ==> w.txs[r.transactionID].tx.status.PendingReference?)
                        && (cmd.kind.Loss? ==> w0.wallets[cmd.walletID].balance.currency == cmd.amount.currency))
  {
    hide Run, Execute, Sound, CanonicalPayload;
    var w0, w := Run(policy, steps[..n]), Run(policy, steps);
    RunIsSound(policy, steps[..n]);
    RunIsSound(policy, steps);
    FirstSuccessOwns(w0, cmd);
    AnswerInCurrency(w0, cmd);
    AfterCommit(policy, steps, n, cmd);
    RunKeepsRows(policy, steps, n + 1);
    var r := Execute(w0, cmd).value.1;
    if r.status.ResultPendingReference? {
      RunIsSound(policy, steps[..n + 1]);
      ParkedIsOpen(Run(policy, steps[..n + 1]), r.transactionID);
      if w.txs[r.transactionID].tx.status.PendingReference? {
        ParkedIsOpen(w, r.transactionID);
      }
    }
  }
}
