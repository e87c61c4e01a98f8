/**
 * Parking then resolving agrees with deciding directly. The resolver repeats the reversal logic on a parked row; here
 * the two outcomes are compared table by table.
 */
module Agreement {
  import opened Prelude
  import opened Int64
  import opened MoneyDomain
  import opened WalletDomain
  import opened WagerDomain
  import opened Store
  import opened Engine
  import opened Runs
  import Ledger = LedgerDomain

  /** The tables differ at most in when the row `id` was created and in its retry columns. */
  ghost predicate SameButAge(a: World, b: World, id: Id) {
    && b == a.(txs := b.txs)
    && a.txs.Keys == b.txs.Keys && id in a.txs
    && (forall j :: j in a.txs && j != id ==> b.txs[j] == a.txs[j])
    && SameFate(a.txs[id].tx, b.txs[id].tx)
  }

  /** Two aggregates that differ only in age. */
  predicate SameFate(s: Tx, t: Tx) {
    t == s.(ident := s.ident.(createdAt := t.ident.createdAt))
  }

  /** As `SameButAge`, while the row is still open: pending on one side, parked on the other. */
  ghost predicate SameWhileOpen(a: World, b: World, id: Id) {
    && b == a.(txs := b.txs)
    && a.txs.Keys == b.txs.Keys && id in a.txs
    && (forall j :: j in a.txs && j != id ==> b.txs[j] == a.txs[j])
    && b.txs[id].tx.ident == a.txs[id].tx.ident.(createdAt := b.txs[id].tx.ident.createdAt)
    && !a.txs[id].tx.status.Processed? && !b.txs[id].tx.status.Processed?
  }

  predicate InHandBoth(a: World, b: World, s: Tx, t: Tx) {
    && s.ident.id in a.txs && a.txs[s.ident.id].tx.ident == s.ident
    && t.ident.id in b.txs && b.txs[t.ident.id].tx.ident == t.ident
    && t == s.(ident := t.ident, status := t.status, updatedAt := t.updatedAt)
    && t.ident == s.ident.(createdAt := t.ident.createdAt)
  }

  /** Both fail with the same error, or both succeed with tables that differ only in the age of the row. */
  ghost predicate Agree(direct: Written, parked: Written, id: Id) {
    match (direct, parked)
    case (Err(e), Err(f)) => e == f
    case (Ok(d), Ok(p)) => SameButAge(d.0, p.0, id) && SameFate(d.1, p.1)
    case _ => false
  }

  lemma RefusalsAgree(a: World, b: World, s: Tx, t: Tx, code: FailureCode, now: Time)
    requires SameWhileOpen(a, b, s.ident.id) && InHandBoth(a, b, s, t)
    ensures Agree(Refuse(a, s, code, now), Refuse(b, t, code, now), s.ident.id)
  {
  }

  lemma FinishesAgree(a: World, b: World, s: Tx, t: Tx, resulting: Money, now: Time)
    requires SameWhileOpen(a, b, s.ident.id) && InHandBoth(a, b, s, t)
    ensures Agree(Finish(a, s, resulting, now), Finish(b, t, resulting, now), s.ident.id)
  {
  }

  lemma BookingsAgree(a: World, b: World, p: Ident, q: Ident, row: WalletRow, expected: int64, m: Movement,
                      direction: Ledger.Direction, now: Time)
    requires SameWhileOpen(a, b, p.id) && q == p.(createdAt := q.createdAt)
    ensures var x, y := Book(a, p, row, expected, m, direction, now), Book(b, q, row, expected, m, direction, now);
            && (x.Ok? <==> y.Ok?) && (x.Err? ==> x == y)
            && (x.Ok? ==> SameWhileOpen(x.value, y.value, p.id) && x.value.txs == a.txs && y.value.txs == b.txs)
  {
  }

  lemma CommitsAgree(a: World, b: World, s: Tx, t: Tx, row: WalletRow, expected: int64, m: Movement,
                     direction: Ledger.Direction, now: Time)
    requires SameWhileOpen(a, b, s.ident.id) && InHandBoth(a, b, s, t)
    ensures Agree(Commit(a, s, row, expected, m, direction, now), Commit(b, t, row, expected, m, direction, now),
                  s.ident.id)
  {
    hide InsertEntry, UpdateWallet, Ledger.New, UpdateTx;
    BookingsAgree(a, b, s.ident, t.ident, row, expected, m, direction, now);
    var x, y := Book(a, s.ident, row, expected, m, direction, now), Book(b, t.ident, row, expected, m, direction, now);
    hide Book;
    if x.Ok? {
      FinishesAgree(x.value, y.value, s, t, m.after, now);
    }
    hide Finish;
  }

  lemma SettlementsAgree(a: World, b: World, s: Tx, t: Tx, target: Id, direction: Ledger.Direction, code: FailureCode,
                         now: Time)
    requires SameWhileOpen(a, b, s.ident.id) && InHandBoth(a, b, s, t)
    ensures Agree(Settle(a, s, Some(target), direction, code, now), Settle(b, t, Some(target), direction, code, now),
                  s.ident.id)
  {
    assert b.wallets == a.wallets;
    hide Commit, Refuse, Agree, SameWhileOpen;
    if s.ident.walletID in a.wallets {
      var row := a.wallets[s.ident.walletID];
      match MoveOf(row, direction, s.ident.money, now)
      case Err(InsufficientBalance) => RefusalsAgree(a, b, s, t, code, now);
      case Err(_) =>
      case Ok(moved) =>
        CommitsAgree(a, b, Attach(s, Some(target)), Attach(t, Some(target)), moved.0, row.version, moved.1, direction,
                     now);
    }
  }

  /** Rows that are not processed are not counted. */
  lemma CountsAgree(a: World, b: World, id: Id, target: Id, kind: Kind)
    requires SameWhileOpen(a, b, id)
    ensures CountReversals(a.txs, target, kind) == CountReversals(b.txs, target, kind)
  {
    var counted := set j | j in a.txs && a.txs[j].tx.resolved == Some(target) && a.txs[j].tx.ident.kind == kind
                           && a.txs[j].tx.status.Processed?;
    assert counted == set j | j in b.txs && b.txs[j].tx.resolved == Some(target) && b.txs[j].tx.ident.kind == kind
                              && b.txs[j].tx.status.Processed?;
  }

  lemma ReversalsAgree(a: World, b: World, s: Tx, t: Tx, target: Id, now: Time)
    requires SameWhileOpen(a, b, s.ident.id) && InHandBoth(a, b, s, t) && target in a.txs && target != s.ident.id
    ensures Agree(Reverse(a, s, target, now), Reverse(b, t, target, now), s.ident.id)
  {
    CountsAgree(a, b, s.ident.id, target, Refund);
    CountsAgree(a, b, s.ident.id, target, Rollback);
    var ref := a.txs[target].tx;
    assert b.txs[target].tx == ref && ReferenceFault(s.ident, ref) == ReferenceFault(t.ident, ref);
    hide Settle, Refuse, Agree, CountReversals;
    RefusalsAgree(a, b, s, t, ReferenceFault(s.ident, ref), now);
    RefusalsAgree(a, b, s, t, DuplicateReversal, now);
    SettlementsAgree(a, b, s, t, target, ReversalDirection(ref.ident.kind), ReversalExceedsBalance, now);
  }

  /** What a lookup found before, it still finds beside a row that clashes with nothing. */
  lemma FoundWithNew(w: World, row: TxRow, provider: string, external: string)
    requires Sound(w) && row.tx.ident.id == w.next && FindExternal(w.txs, provider, external).Some?
    requires forall id :: id in w.txs ==> !SameExternal(w.txs[id].tx, row.tx)
    ensures FindExternal(w.txs[w.next := row], provider, external) == FindExternal(w.txs, provider, external)
  {
    hide RowSound;
    var txs := w.txs[w.next := row];
    var before := FindExternal(w.txs, provider, external);
    assert w.next !in w.txs && HasExternal(txs[before.value].tx, provider, external);
    assert !SameExternal(w.txs[before.value].tx, row.tx);
  }

  lemma InsertAccepts(w: World, p: Ident)
    requires Sound(w) && p.id == w.next && Writable(w, p)
    ensures p.id !in w.txs && ExternalFault(p) == None
    ensures InsertTx(w.(next := w.next + 1), FreshTx(p))
            == Ok(w.(txs := w.txs[p.id := TxRow(FreshTx(p), 0, None)], next := w.next + 1))
  {
    hide UniqueKeys, RowSound;
  }

  /** Deciding a reversal at once is reversing from the tables with its new row. */
  lemma DecidingIsReversing(w: World, cmd: Command)
    requires Sound(w) && RequiresReference(cmd.kind) && Writable(w, IdentOf(cmd, w.next))
    requires FindExternal(w.txs, cmd.providerID, cmd.reference).Some?
    ensures var p := IdentOf(cmd, w.next);
            var a := w.(txs := w.txs[p.id := TxRow(FreshTx(p), 0, None)], next := w.next + 1);
            var target := FindExternal(w.txs, cmd.providerID, cmd.reference).value;
            Create(w, cmd) == Reverse(a, FreshTx(p), target, cmd.now)
  {
    hide Reverse, Settle, Observe, Park, UniqueKeys, RowSound, InsertTx;
    var p := IdentOf(cmd, w.next);
    InsertAccepts(w, p);
    FoundWithNew(w, TxRow(FreshTx(p), 0, None), cmd.providerID, cmd.reference);
  }

  /**
   * Take any sound tables where a reversal's reference exists and the command clashes with nothing. Deciding the
   * command at once, and attempting it at the same moment from a row parked earlier, give the same verdict, failure
   * code, wallets, ledger, resolved reference and events; only the age and the retry columns of its row differ.
   */
  lemma ResolvingAgreesWithDeciding(w: World, policy: RetryPolicy, cmd: Command, parked: TxRow)
    requires Sound(w) && RequiresReference(cmd.kind) && FindExternal(w.txs, cmd.providerID, cmd.reference).Some?
    requires Writable(w, IdentOf(cmd, w.next))
    requires var p := IdentOf(cmd, w.next).(createdAt := parked.tx.ident.createdAt);
             parked.tx == ParkedTx(FreshTx(p), parked.tx.updatedAt)
    ensures var direct := Create(w, cmd);
            var resolved := Attempt(w.(txs := w.txs[w.next := parked], next := w.next + 1), policy, parked.tx, cmd.now);
            match (direct, resolved)
            case (Err(e), Err(f)) => e == f
            case (Ok(d), Ok(r)) => r.1 && SameButAge(d.0, r.0, w.next)
            case _ => false
  {
    hide Writable, Create, Reverse, SameButAge, UniqueKeys, RowSound, RescheduleOrExpire, SameWhileOpen, InHandBoth;
    var p := IdentOf(cmd, w.next);
    var a := w.(txs := w.txs[p.id := TxRow(FreshTx(p), 0, None)], next := w.next + 1);
    var b := w.(txs := w.txs[p.id := parked], next := w.next + 1);
    var target := FindExternal(w.txs, cmd.providerID, cmd.reference).value;
    DecidingIsReversing(w, cmd);
    assert w.next !in w.txs;
    ParkedWithNew(w, p, parked);
    FoundWithNew(w, parked, cmd.providerID, cmd.reference);
    OpenPair(w, p, parked);
    ReversalsAgree(a, b, FreshTx(p), parked.tx, target, cmd.now);
    assert Attempt(b, policy, parked.tx, cmd.now) == Resolved(Reverse(b, parked.tx, target, cmd.now));
  }

  lemma OpenPair(w: World, p: Ident, parked: TxRow)
    requires p.id == w.next && w.next !in w.txs
    requires parked.tx == ParkedTx(FreshTx(p.(createdAt := parked.tx.ident.createdAt)), parked.tx.updatedAt)
    ensures var a := w.(txs := w.txs[p.id := TxRow(FreshTx(p), 0, None)], next := w.next + 1);
            var b := w.(txs := w.txs[p.id := parked], next := w.next + 1);
            SameWhileOpen(a, b, p.id) && InHandBoth(a, b, FreshTx(p), parked.tx)
  {
  }

  lemma ParkedWithNew(w: World, p: Ident, parked: TxRow)
    requires Sound(w) && Writable(w, p) && p.id == w.next
    requires parked.tx.ident == p.(createdAt := parked.tx.ident.createdAt)
    ensures forall id :: id in w.txs ==> !SameExternal(w.txs[id].tx, parked.tx)
  {
    hide UniqueKeys, RowSound;
    forall id | id in w.txs
      ensures !SameExternal(w.txs[id].tx, parked.tx)
    {
      assert !SameExternal(w.txs[id].tx, FreshTx(p));
    }
  }
}
