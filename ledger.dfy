/**
 * Transactions and the member's balance. Amounts are integers in øre
 * (hundredths of a krone).
 */
module Ledger {
  import opened Wrappers

  /** The errors the engine raises, named after the source's exception classes. */
  datatype Error =
    | StregForbudError        // the balance cannot cover a debit
    | NoMoreInventoryError    // a product's remaining stock cannot cover the count ordered
    | RuntimeError            // a Sale saved twice or deleted unsaved
    | AssertionError          // a Payment deleted unsaved

  /** `PayTransaction` debits the member, `GetTransaction` credits them. */
  datatype Kind = Pay | Get

  /** A transaction accumulates an amount before it is applied once to a balance. */
  class Transaction {
    const kind: Kind
    var amount: int

    constructor (kind: Kind, amount: int)
      ensures this.kind == kind && this.amount == amount
    {
      this.kind := kind;
      this.amount := amount;
    }

    /** `add`: accumulates `delta` into the amount. */
    method Add(delta: int)
      modifies this
      ensures amount == old(amount) + delta
    {
      amount := amount + delta;
    }

    /** `change()`: the signed amount to apply to a balance. */
    function Change(): (c: int)
      reads this
      ensures kind == Pay ==> c == -amount
      ensures kind == Get ==> c == amount
      ensures amount >= 0 ==> (kind == Pay ==> c <= 0) && (kind == Get ==> c >= 0)
    {
      match kind
      case Pay => -amount
      case Get => amount
    }
  }

  class Member {
    const username: string
    const active: bool
    var balance: int
    /** The kind and amount of every transaction `Fulfill` has applied, in order (a record of its calls). */
    ghost var fulfilled: seq<(Kind, int)>
    /** The argument of every `MakePayment` call, in order. */
    ghost var paid: seq<int>

    constructor (username: string, active: bool, balance: int)
      ensures this.username == username && this.active == active && this.balance == balance
      ensures fulfilled == [] && paid == []
    {
      this.username := username;
      this.active := active;
      this.balance := balance;
      fulfilled, paid := [], [];
    }

    /** `can_fulfill`: the balance covers the transaction. */
    predicate CanFulfill(t: Transaction): (ok: bool)
      reads this, t
      ensures t.kind == Pay ==> (ok <==> t.amount <= balance)
      ensures t.kind == Get ==> (ok <==> balance + t.amount >= 0)
    {
      balance + t.Change() >= 0
    }

    /**
     * `fulfill`: applies the transaction when the balance covers it, and
     * otherwise raises `StregForbudError` and leaves the balance as it was.
     */
    method Fulfill(t: Transaction) returns (r: Outcome<Error>)
      modifies this
      ensures r == (if old(CanFulfill(t)) then Pass else Fail(StregForbudError))
      ensures r.Pass? ==> balance == old(balance) + t.Change() && balance >= 0
      ensures r.Pass? ==> fulfilled == old(fulfilled) + [(t.kind, t.amount)]
      ensures r.Fail? ==> balance == old(balance) && fulfilled == old(fulfilled)
      ensures paid == old(paid)
    {
      if !CanFulfill(t) {
        return Fail(StregForbudError);
      }
      balance := balance + t.Change();
      fulfilled := fulfilled + [(t.kind, t.amount)];
      r := Pass;
    }

    /** `rollback`: undoes a transaction, without any check. */
    method Rollback(t: Transaction)
      modifies this
      ensures balance == old(balance) - t.Change()
      ensures fulfilled == old(fulfilled) && paid == old(paid)
    {
      balance := balance - t.Change();
    }

    /** `make_payment`: adds the signed amount to the balance, without any check. */
    method MakePayment(amount: int)
      modifies this
      ensures balance == old(balance) + amount
      ensures paid == old(paid) + [amount] && fulfilled == old(fulfilled)
    {
      balance := balance + amount;
      paid := paid + [amount];
    }
  }
}
