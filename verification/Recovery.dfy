/**
 * internal/application/process_wager_transaction.go, lines 194 to 204: other clients may commit between the lookups of
 * a command and its insert. What the recovery after the clash answers is what looking again would have answered.
 */
module Recovery {
  import opened Prelude
  import opened Int64
  import opened MoneyDomain
  import opened WalletDomain
  import opened WagerDomain
  import opened Store
  import opened Engine
  import opened Runs
  import opened Idempotency
  import Ledger = LedgerDomain

  /** A row that carries a hash is the identity of a command with that payload. */
  ghost predicate Stamped(p: Ident) {
    p.hash.Some? ==> exists cmd :: p == IdentOf(cmd, p.id)
  }

  ghost predicate AllStamped(txs: map<Id, TxRow>) {
    forall id :: id in txs ==> Stamped(txs[id].tx.ident)
  }

  /** Identities stay, and any row that was not there is row `id`. */
  lemma StampsKept(txs: map<Id, TxRow>, txs': map<Id, TxRow>, id: Id)
    requires AllStamped(txs) && Extends(txs, txs') && txs'.Keys <= txs.Keys + {id}
    requires id in txs' && id !in txs ==> Stamped(txs'[id].tx.ident)
    ensures AllStamped(txs')
  {
    hide Stamped;
    forall j | j in txs'
      ensures Stamped(txs'[j].tx.ident)
    {
      assert j == id || j in txs;
    }
  }

  /** The rows after a change are the rows before it and the one it is about; only an opening has no hash. */
  lemma RowsAfter(w: World, w': World, c: Change)
    requires Changes(w, w', c)
    ensures match c
            case Credited(row, t, e) =>
              w'.txs.Keys == w.txs.Keys + {t.ident.id} && w'.txs[t.ident.id].tx.ident.hash == None
            case Noted(t) => w'.txs.Keys == w.txs.Keys + {t.ident.id}
            case Booked(b) => w'.txs.Keys == w.txs.Keys + {b.tx.ident.id}
            case _ => w'.txs.Keys == w.txs.Keys
  {
    hide Justified, AnnouncedMove, Told, Writable, Carried;
  }

  lemma CreateStamps(w: World, cmd: Command)
    requires Sound(w) && AllStamped(w.txs) && Create(w, cmd).Ok?
    ensures AllStamped(Create(w, cmd).value.0.txs)
  {
    hide Create, Changes, Sound, Stamped, AllStamped;
    CreateEffect(w, cmd);
    var (w', t) := Create(w, cmd).value;
    var c :| Changes(w, w', c) && Leaves(c, t);
    RowsAfter(w, w', c);
    ChangesExtend(w, w', c);
    LeftBehind(w, w', c, t);
    CommandIsStamped(cmd, w.next);
    StampsKept(w.txs, w'.txs, w.next);
  }

  lemma CommandIsStamped(cmd: Command, id: Id)
    ensures Stamped(IdentOf(cmd, id))
  {
  }

  lemma ExecuteStamps(w: World, cmd: Command)
    requires Sound(w) && AllStamped(w.txs) && Execute(w, cmd).Ok?
    ensures AllStamped(Execute(w, cmd).value.0.txs)
  {
    hide Create, Sound, AllStamped, CanonicalPayload;
    var w1 := Entered(w, cmd);
    EnteredIsSound(w, cmd);
    if Create(w1, cmd).Ok? {
      CreateStamps(w1, cmd);
    }
  }

  lemma StampsPreserved(w: World, policy: RetryPolicy, step: Step)
    requires Sound(w) && AllStamped(w.txs)
    ensures AllStamped(After(w, policy, step).txs)
  {
    hide Open, Execute, Attempt, Sound, AllStamped, Changes, Due;
    var w' := After(w, policy, step);
    if w' != w {
      match step
      case OpenWallet(cmd, commits) =>
        OpenEffect(w, cmd);
        var c :| Changes(w, w', c) && (c.Opened? || c.Credited?);
        RowsAfter(w, w', c);
        ChangesExtend(w, w', c);
        StampsKept(w.txs, w'.txs, if c.Credited? then c.tx.ident.id else w.next);
      case Submit(cmd, commits) =>
        ExecuteStamps(w, cmd);
      case Resolve(id, now, commits) =>
        AttemptStays(w, policy, id, now);
        StampsKept(w.txs, w'.txs, id);
    }
  }

  lemma AttemptStays(w: World, policy: RetryPolicy, id: Id, now: Time)
    requires Sound(w) && id in w.txs && Due(w.txs[id], now) && Attempt(w, policy, w.txs[id].tx, now).Ok?
    ensures var w' := Attempt(w, policy, w.txs[id].tx, now).value.0;
            Extends(w.txs, w'.txs) && w'.txs.Keys == w.txs.Keys
  {
    hide Attempt, Changes, Sound;
    AttemptEffect(w, policy, id, now);
    var w' := Attempt(w, policy, w.txs[id].tx, now).value.0;
    var c :| Changes(w, w', c) && About(c, id);
    RowsAfter(w, w', c);
    ChangesExtend(w, w', c);
  }

  lemma {:induction false} RunIsStamped(policy: RetryPolicy, steps: seq<Step>)
    ensures AllStamped(Run(policy, steps).txs)
  {
    if steps != [] {
      hide AllStamped, Sound, After;
      RunIsStamped(policy, steps[..|steps| - 1]);
      RunIsSound(policy, steps[..|steps| - 1]);
      StampsPreserved(Run(policy, steps[..|steps| - 1]), policy, steps[|steps| - 1]);
    }
  }

  // ---- the clash ----

  /** A row with the command's key and payload is what the command would have become. */
  lemma SamePayloadSameRow(w: World, id: Id, cmd: Command)
    requires Sound(w) && AllStamped(w.txs) && id in w.txs && HasKey(w.txs[id].tx, cmd.providerID, cmd.key)
    requires w.txs[id].tx.ident.hash == Some(CanonicalPayload(cmd))
    ensures ExternalFault(IdentOf(cmd, w.next)) == None
    ensures FindExternal(w.txs, cmd.providerID, cmd.externalID) == Some(id)
  {
    hide CanonicalPayload, UniqueKeys;
    UniqueMatches(w.txs, cmd.providerID, cmd.externalID, cmd.key);
    var p := w.txs[id].tx.ident;
    assert RowSound(w.txs[id].tx) && Stamped(p);
    var first :| p == IdentOf(first, p.id);
    PayloadIdentifies(first, cmd);
    assert HasExternal(w.txs[id].tx, cmd.providerID, cmd.externalID);
  }

  /** The insert clashes exactly when a row has the key or the external id by then. */
  lemma ClashesExactly(w: World, cmd: Command)
    requires Sound(w) && ExternalFault(IdentOf(cmd, w.next)) == None
    ensures Clashes(w, cmd) <==> FindKey(w.txs, cmd.providerID, cmd.key).Some?
                                 || FindExternal(w.txs, cmd.providerID, cmd.externalID).Some?
    ensures var external := FindExternal(w.txs, cmd.providerID, cmd.externalID);
            external.Some? && FindKey(w.txs, cmd.providerID, cmd.key).None? ==>
              w.txs[external.value].tx.ident.key != cmd.key
  {
    hide CanonicalPayload, UniqueKeys, RowSound;
    var key := FindKey(w.txs, cmd.providerID, cmd.key);
    var external := FindExternal(w.txs, cmd.providerID, cmd.externalID);
    var t := FreshTx(IdentOf(cmd, w.next));
    if key.Some? {
      assert SameKey(w.txs[key.value].tx, t);
    }
    if external.Some? {
      assert SameExternal(w.txs[external.value].tx, t);
    }
  }

  /**
   * Whatever other clients committed after the lookups of a command found nothing, the insert and its recovery
   * succeed exactly when the whole call, lookups included, would succeed on the tables of now, with the same answer
   * and, but for an identifier used up, the same tables. When the database does not answer after the clash, the only
   * difference is that a clash is an error. A command with a fault errs for it; a clash errs as a conflict, unless the
   * key turns out to be taken with another payload; and anything else errs as now.
   */
  lemma RecoveryAnswersAsNow(policy: RetryPolicy, steps: seq<Step>, cmd: Command, answers: bool)
    ensures var w := Entered(Run(policy, steps), cmd);
            var late, now := CreateOrRecover(w, cmd, answers), Process(w, cmd);
            && (late.Ok? <==> now.Ok? && (answers || !Clashes(w, cmd)))
            && (late.Ok? ==> late.value.1 == now.value.1
                             && late.value.0 == if now.value.1.replay then w.(next := w.next + 1) else now.value.0)
            && (late.Err? ==>
                  var fault := ExternalFault(IdentOf(cmd, w.next));
                  if fault.Some? then late.error == fault.value
                  else if !Clashes(w, cmd) then late == now
                  else
                    var known := FindKey(w.txs, cmd.providerID, cmd.key).Some?;
                    late.error == if answers && known then IdempotencyKeyReused else Conflict)
  {
    hide Run, Sound, AllStamped, Process, CreateOrRecover, Clashes, ExternalFault;
    RunIsSound(policy, steps);
    RunIsStamped(policy, steps);
    EnteredIsSound(Run(policy, steps), cmd);
    RecoveryOnTables(Entered(Run(policy, steps), cmd), cmd, answers);
  }

  lemma RecoveryOnTables(w: World, cmd: Command, answers: bool)
    requires Sound(w) && AllStamped(w.txs)
    ensures var late, now := CreateOrRecover(w, cmd, answers), Process(w, cmd);
            && (late.Ok? <==> now.Ok? && (answers || !Clashes(w, cmd)))
            && (late.Ok? ==> late.value.1 == now.value.1
                             && late.value.0 == if now.value.1.replay then w.(next := w.next + 1) else now.value.0)
            && (late.Err? ==>
                  var fault := ExternalFault(IdentOf(cmd, w.next));
                  if fault.Some? then late.error == fault.value
                  else if !Clashes(w, cmd) then late == now
                  else
                    var known := FindKey(w.txs, cmd.providerID, cmd.key).Some?;
                    late.error == if answers && known then IdempotencyKeyReused else Conflict)
  {
    hide Sound, AllStamped, Create, Clashes, CanonicalPayload, ExternalFault;
    var key := FindKey(w.txs, cmd.providerID, cmd.key);
    if key.Some? && w.txs[key.value].tx.ident.hash == Some(CanonicalPayload(cmd)) {
      SamePayloadSameRow(w, key.value, cmd);
    }
    if ExternalFault(IdentOf(cmd, w.next)) == None {
      ClashesExactly(w, cmd);
    } else {
      FaultsComeFirst(w, cmd);
    }
  }

  lemma FaultsComeFirst(w: World, cmd: Command)
    requires ExternalFault(IdentOf(cmd, w.next)).Some?
    ensures !Clashes(w, cmd) && Create(w, cmd) == Err(ExternalFault(IdentOf(cmd, w.next)).value)
  {
    hide Dispatch;
  }
}
