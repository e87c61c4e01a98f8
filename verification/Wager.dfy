/** internal/domain/wager: a wager transaction and its status machine. */
module WagerDomain {
  import opened Prelude
  import opened Int64
  import opened MoneyDomain

  /** Kinds are strings in the source; `Other` stands for every string that names no kind. */
  datatype Kind = Opening | Bet | Win | Loss | Refund | Rollback | Other(name: string)

  predicate IsExternal(k: Kind) {
    k.Bet? || k.Win? || k.Loss? || k.Refund? || k.Rollback?
  }

  predicate RequiresReference(k: Kind) {
    k.Refund? || k.Rollback?
  }

  predicate MayCarryReference(k: Kind) {
    k.Refund? || k.Rollback? || k.Win?
  }

  datatype Status = Pending | PendingReference | Processed | Rejected | Failed

  predicate IsTerminal(s: Status) {
    s.Processed? || s.Rejected? || s.Failed?
  }

  /** `NoCode` is the empty code of a transaction that was not rejected. */
  datatype FailureCode =
    | NoCode
    | InsufficientFunds
    | ReversalExceedsBalance
    | ReferenceNotFound
    | ReferenceMismatch
    | ReferenceNotProcessed
    | DuplicateReversal

  /** What the canonical hash is taken of; hashing is taken to be injective, so the payload is its own hash. */
  datatype Payload = Payload(providerID: string, externalID: string, playerID: Id, walletID: Id, roundID: string,
                             gameID: string, kind: Kind, amount: string, currency: string, reference: string)

  /** The fields no operation ever writes again. An opening has no payload and empty provider fields. */
  datatype Ident = Ident(id: Id, providerID: string, externalID: string, key: string, hash: Option<Payload>,
                         walletID: Id, playerID: Id, roundID: string, gameID: string, kind: Kind, money: Money,
                         reference: string, createdAt: Time)

  datatype Tx = Tx(ident: Ident, status: Status, failure: FailureCode, resolved: Option<Id>,
                   resulting: Option<Money>, updatedAt: Time)

  predicate AmountAllowed(kind: Kind, m: Money) {
    match kind
    case Loss => m.minorUnits == 0
    case Other(_) => false
    case _ => m.minorUnits > 0
  }

  /** The checks of NewExternal, in their order. */
  function ExternalFault(p: Ident): Option<Error> {
    if !IsExternal(p.kind) then Some(InvalidKindForOperation)
    else if p.id == NIL || p.walletID == NIL || p.playerID == NIL then Some(InvalidTransaction)
    else if p.providerID == "" || p.externalID == "" || p.key == "" || p.hash == None then Some(InvalidTransaction)
    else if p.roundID == "" || p.gameID == "" then Some(InvalidTransaction)
    else if RequiresReference(p.kind) && p.reference == "" then Some(InvalidTransaction)
    else if !MayCarryReference(p.kind) && p.reference != "" then Some(InvalidTransaction)
    else if !AmountAllowed(p.kind, p.money) then Some(InvalidTransaction)
    else None
  }

  /** What a provider may submit, in plain terms. */
  predicate Submittable(p: Ident) {
    && (p.kind.Bet? || p.kind.Win? || p.kind.Loss? || p.kind.Refund? || p.kind.Rollback?)
    && p.id != NIL && p.walletID != NIL && p.playerID != NIL && p.hash.Some?
    && p.providerID != "" && p.externalID != "" && p.key != "" && p.roundID != "" && p.gameID != ""
    && (p.kind.Refund? || p.kind.Rollback? ==> p.reference != "")
    && (p.kind.Bet? || p.kind.Loss? ==> p.reference == "")
    && (if p.kind.Loss? then p.money.minorUnits == 0 else p.money.minorUnits > 0)
  }

  /** The ordered checks let through exactly what is submittable, and tell a wrong kind from any other fault. */
  lemma FaultsAreExact(p: Ident)
    ensures ExternalFault(p) == None <==> Submittable(p)
    ensures ExternalFault(p) == Some(InvalidKindForOperation) <==> p.kind.Opening? || p.kind.Other?
    ensures ExternalFault(p).Some? ==>
              ExternalFault(p).value == InvalidKindForOperation || ExternalFault(p).value == InvalidTransaction
  {
  }

  function FreshTx(p: Ident): Tx {
    Tx(p, Pending, NoCode, None, None, p.createdAt)
  }

  function ProcessedTx(t: Tx, resulting: Money, at: Time): Tx {
    t.(status := Processed, resulting := Some(resulting), updatedAt := at)
  }

  function RejectedTx(t: Tx, code: FailureCode, at: Time): Tx {
    t.(status := Rejected, failure := code, updatedAt := at)
  }

  function ParkedTx(t: Tx, at: Time): Tx {
    t.(status := PendingReference, updatedAt := at)
  }

  class Transaction {
    const ident: Ident
    var status: Status
    var failure: FailureCode
    var resolved: Option<Id>
    var resulting: Option<Money>
    var updatedAt: Time

    function Value(): Tx
      reads this
    {
      Tx(ident, status, failure, resolved, resulting, updatedAt)
    }

    /** Rehydrates a stored transaction. */
    constructor (t: Tx)
      ensures Value() == t
    {
      ident, status, failure := t.ident, t.status, t.failure;
      resolved, resulting, updatedAt := t.resolved, t.resulting, t.updatedAt;
    }

    static method NewExternal(p: Ident) returns (r: Result<Transaction, Error>)
      ensures r.Ok? <==> Submittable(p)
      ensures r.Ok? ==> fresh(r.value) && r.value.Value() == Tx(p, Pending, NoCode, None, None, p.createdAt)
      ensures r.Err? ==> r.error == if p.kind.Opening? || p.kind.Other? then InvalidKindForOperation
                                    else InvalidTransaction
    {
      FaultsAreExact(p);
      if ExternalFault(p).Some? {
        return Err(ExternalFault(p).value);
      }
      var t := new Transaction(FreshTx(p));
      return Ok(t);
    }

    /** An opening credit is created already processed. */
    static method NewOpening(id: Id, walletID: Id, playerID: Id, amount: Money, at: Time)
      returns (r: Result<Transaction, Error>)
      ensures r.Ok? <==> id != NIL && walletID != NIL && playerID != NIL && amount.minorUnits > 0
      ensures r.Ok? ==> fresh(r.value) && r.value.Value()
                                          == Tx(Ident(id, "", "", "", None, walletID, playerID, "", "", Opening, amount,
                                                      "", at),
                                                Processed, NoCode, None, Some(amount), at)
      ensures r.Err? ==> r.error == InvalidTransaction
    {
      if id == NIL || walletID == NIL || playerID == NIL || !AmountAllowed(Opening, amount) {
        return Err(InvalidTransaction);
      }
      var t := new Transaction(OpeningTx(id, walletID, playerID, amount, at));
      return Ok(t);
    }

    method AttachResolvedReference(id: Id) returns (r: Outcome<Error>)
      modifies this
      ensures r == if old(status) in {Processed, Rejected, Failed} then Fail(InvalidTransition)
                   else if id == NIL then Fail(InvalidTransaction) else Pass
      ensures Value() == if r == Pass then old(Value()).(resolved := Some(id)) else old(Value())
    {
      if IsTerminal(status) {
        return Fail(InvalidTransition);
      }
      if id == NIL {
        return Fail(InvalidTransaction);
      }
      resolved := Some(id);
      return Pass;
    }

    method MarkPendingReference(at: Time) returns (r: Outcome<Error>)
      modifies this
      ensures r == if old(status).Pending? then Pass else Fail(InvalidTransition)
      ensures Value() == if r == Pass then old(Value()).(status := PendingReference, updatedAt := at) else old(Value())
    {
      if status != Pending {
        return Fail(InvalidTransition);
      }
      status := PendingReference;
      updatedAt := at;
      return Pass;
    }

    method MarkProcessed(balance: Money, at: Time) returns (r: Outcome<Error>)
      modifies this
      ensures r == if old(status) in {Processed, Rejected, Failed} then Fail(InvalidTransition) else Pass
      ensures Value() == if r == Pass
                         then old(Value()).(status := Processed, resulting := Some(balance), updatedAt := at)
                         else old(Value())
    {
      if IsTerminal(status) {
        return Fail(InvalidTransition);
      }
      status := Processed;
      resulting := Some(balance);
      updatedAt := at;
      return Pass;
    }

    method MarkRejected(code: FailureCode, at: Time) returns (r: Outcome<Error>)
      modifies this
      ensures r == if old(status) in {Processed, Rejected, Failed} then Fail(InvalidTransition)
                   else if code == NoCode then Fail(InvalidTransaction) else Pass
      ensures Value() == if r == Pass then old(Value()).(status := Rejected, failure := code, updatedAt := at)
                         else old(Value())
    {
      if IsTerminal(status) {
        return Fail(InvalidTransition);
      }
      if code == NoCode {
        return Fail(InvalidTransaction);
      }
      status := Rejected;
      failure := code;
      updatedAt := at;
      return Pass;
    }
  }

  function OpeningTx(id: Id, walletID: Id, playerID: Id, amount: Money, at: Time): Tx {
    Tx(Ident(id, "", "", "", None, walletID, playerID, "", "", Opening, amount, "", at),
       Processed, NoCode, None, Some(amount), at)
  }
}
