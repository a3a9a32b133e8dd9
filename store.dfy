/**
 * The Sale and Payment tables and the one-shot save/delete rules of their
 * rows: a Sale may be saved once and deleted only once saved; a Payment
 * credits its member when first saved, a second save does nothing, and
 * deleting it takes the credit back.
 */
module Store {
  import opened Wrappers
  import opened Ledger
  import opened Catalog

  datatype SaleRecord = SaleRecord(id: nat, fact: SaleFact)

  datatype PaymentRecord = PaymentRecord(id: nat, member: Member, amount: int)

  function Facts(rows: seq<SaleRecord>): seq<SaleFact> {
    seq(|rows|, i requires 0 <= i < |rows| => rows[i].fact)
  }

  /** Row ids increase along the table and stay below the next id to hand out. */
  ghost predicate SaleIdsValid(rows: seq<SaleRecord>, next: nat) {
    (forall i, j :: 0 <= i < j < |rows| ==> rows[i].id < rows[j].id) &&
    (forall i :: 0 <= i < |rows| ==> 0 < rows[i].id < next)
  }

  ghost predicate PaymentIdsValid(rows: seq<PaymentRecord>, next: nat) {
    (forall i, j :: 0 <= i < j < |rows| ==> rows[i].id < rows[j].id) &&
    (forall i :: 0 <= i < |rows| ==> 0 < rows[i].id < next)
  }

  /** The table without the row whose id is `id`. */
  function WithoutSale(rows: seq<SaleRecord>, id: nat): (r: seq<SaleRecord>)
    ensures forall i :: 0 <= i < |r| ==> r[i] in rows && r[i].id != id
    ensures forall i :: 0 <= i < |rows| && rows[i].id != id ==> rows[i] in r
  {
    if rows == [] then []
    else if rows[0].id == id then WithoutSale(rows[1..], id)
    else [rows[0]] + WithoutSale(rows[1..], id)
  }

  lemma {:induction false} WithoutSaleValid(rows: seq<SaleRecord>, id: nat, next: nat)
    requires SaleIdsValid(rows, next)
    ensures SaleIdsValid(WithoutSale(rows, id), next)
  {
    if rows != [] {
      WithoutSaleValid(rows[1..], id, next);
      if rows[0].id != id {
        WithoutSaleAbove(rows[1..], id, rows[0].id);
        SaleRecordConsValid(rows[0], WithoutSale(rows[1..], id), next);
      }
    }
  }

  lemma {:induction false} WithoutSaleAbove(rows: seq<SaleRecord>, id: nat, low: nat)
    requires forall i :: 0 <= i < |rows| ==> low < rows[i].id
    ensures forall i :: 0 <= i < |WithoutSale(rows, id)| ==> low < WithoutSale(rows, id)[i].id
  {
    if rows != [] {
      WithoutSaleAbove(rows[1..], id, low);
    }
  }

  lemma SaleRecordConsValid(x: SaleRecord, rest: seq<SaleRecord>, next: nat)
    requires SaleIdsValid(rest, next) && 0 < x.id < next
    requires forall i :: 0 <= i < |rest| ==> x.id < rest[i].id
    ensures SaleIdsValid([x] + rest, next)
  {
  }

  function WithoutPayment(rows: seq<PaymentRecord>, id: nat): (r: seq<PaymentRecord>)
    ensures forall i :: 0 <= i < |r| ==> r[i] in rows && r[i].id != id
    ensures forall i :: 0 <= i < |rows| && rows[i].id != id ==> rows[i] in r
  {
    if rows == [] then []
    else if rows[0].id == id then WithoutPayment(rows[1..], id)
    else [rows[0]] + WithoutPayment(rows[1..], id)
  }

  lemma {:induction false} WithoutPaymentValid(rows: seq<PaymentRecord>, id: nat, next: nat)
    requires PaymentIdsValid(rows, next)
    ensures PaymentIdsValid(WithoutPayment(rows, id), next)
  {
    if rows != [] {
      WithoutPaymentValid(rows[1..], id, next);
      if rows[0].id != id {
        WithoutPaymentAbove(rows[1..], id, rows[0].id);
        PaymentRecordConsValid(rows[0], WithoutPayment(rows[1..], id), next);
      }
    }
  }

  lemma {:induction false} WithoutPaymentAbove(rows: seq<PaymentRecord>, id: nat, low: nat)
    requires forall i :: 0 <= i < |rows| ==> low < rows[i].id
    ensures forall i :: 0 <= i < |WithoutPayment(rows, id)| ==> low < WithoutPayment(rows, id)[i].id
  {
    if rows != [] {
      WithoutPaymentAbove(rows[1..], id, low);
    }
  }

  lemma PaymentRecordConsValid(x: PaymentRecord, rest: seq<PaymentRecord>, next: nat)
    requires PaymentIdsValid(rest, next) && 0 < x.id < next
    requires forall i :: 0 <= i < |rest| ==> x.id < rest[i].id
    ensures PaymentIdsValid([x] + rest, next)
  {
  }

  /** Deleting the row just saved gives the table back as it was. */
  lemma {:induction false} WithoutSaleUndoesSave(rows: seq<SaleRecord>, row: SaleRecord)
    requires forall i :: 0 <= i < |rows| ==> rows[i].id < row.id
    ensures WithoutSale(rows + [row], row.id) == rows
  {
    if rows == [] {
      assert [] + [row] == [row];
    } else {
      assert (rows + [row])[1..] == rows[1..] + [row];
      WithoutSaleUndoesSave(rows[1..], row);
    }
  }

  lemma {:induction false} WithoutPaymentUndoesSave(rows: seq<PaymentRecord>, row: PaymentRecord)
    requires forall i :: 0 <= i < |rows| ==> rows[i].id < row.id
    ensures WithoutPayment(rows + [row], row.id) == rows
  {
    if rows == [] {
      assert [] + [row] == [row];
    } else {
      assert (rows + [row])[1..] == rows[1..] + [row];
      WithoutPaymentUndoesSave(rows[1..], row);
    }
  }

  /** The database: the Sale and Payment tables and their id counters. */
  class Database {
    var sales: seq<SaleRecord>
    var payments: seq<PaymentRecord>
    var nextSaleId: nat
    var nextPaymentId: nat

    ghost predicate Valid()
      reads this
    {
      0 < nextSaleId && 0 < nextPaymentId &&
      SaleIdsValid(sales, nextSaleId) && PaymentIdsValid(payments, nextPaymentId)
    }

    constructor ()
      ensures Valid() && sales == [] && payments == []
    {
      sales, payments := [], [];
      nextSaleId, nextPaymentId := 1, 1;
    }

    /** The facts the Sale table records, in table order. */
    function SaleFacts(): seq<SaleFact>
      reads this
    {
      Facts(sales)
    }
  }

  class Sale {
    const member: Member
    const product: nat
    const room: nat
    const price: int
    const timestamp: int
    var id: Option<nat>

    constructor (member: Member, product: nat, room: nat, price: int, timestamp: int)
      ensures this.member == member && this.product == product && this.room == room
      ensures this.price == price && this.timestamp == timestamp && id == None
    {
      this.member, this.product, this.room := member, product, room;
      this.price, this.timestamp := price, timestamp;
      id := None;
    }

    function Fact(): SaleFact {
      SaleFact(member, product, room, price, timestamp)
    }

    /** `Sale.save`: inserts the row and assigns its id; a second save raises `RuntimeError`. */
    method Save(db: Database) returns (r: Outcome<Error>)
      requires db.Valid()
      modifies this, db
      ensures db.Valid()
      ensures old(id).Some? ==> r == Fail(RuntimeError) && id == old(id) && unchanged(db)
      ensures old(id).None? ==> r == Pass && id == Some(old(db.nextSaleId))
      ensures old(id).None? ==> db.sales == old(db.sales) + [SaleRecord(old(db.nextSaleId), Fact())]
      ensures old(id).None? ==> db.nextSaleId == old(db.nextSaleId) + 1
      ensures db.payments == old(db.payments) && db.nextPaymentId == old(db.nextPaymentId)
    {
      if id.Some? {
        return Fail(RuntimeError);
      }
      id := Some(db.nextSaleId);
      db.sales := db.sales + [SaleRecord(db.nextSaleId, Fact())];
      db.nextSaleId := db.nextSaleId + 1;
      r := Pass;
    }

    /** `Sale.delete`: removes the saved row and clears the id; deleting an unsaved sale raises `RuntimeError`. */
    method Delete(db: Database) returns (r: Outcome<Error>)
      requires db.Valid()
      modifies this, db
      ensures db.Valid()
      ensures old(id).None? ==> r == Fail(RuntimeError) && id == None && unchanged(db)
      ensures old(id).Some? ==> r == Pass && id == None
      ensures old(id).Some? ==> db.sales == WithoutSale(old(db.sales), old(id).value)
      ensures db.nextSaleId == old(db.nextSaleId)
      ensures db.payments == old(db.payments) && db.nextPaymentId == old(db.nextPaymentId)
    {
      if id.None? {
        return Fail(RuntimeError);
      }
      WithoutSaleValid(db.sales, id.value, db.nextSaleId);
      db.sales := WithoutSale(db.sales, id.value);
      id := None;
      r := Pass;
    }
  }

  class Payment {
    const member: Member
    const amount: int
    var id: Option<nat>

    constructor (member: Member, amount: int)
      ensures this.member == member && this.amount == amount && id == None
    {
      this.member, this.amount := member, amount;
      id := None;
    }

    /**
     * `Payment.save`: the first save inserts the row and calls
     * `make_payment(amount)` once; saving a saved payment does nothing.
     */
    method Save(db: Database)
      requires db.Valid()
      modifies this, db, member
      ensures db.Valid()
      ensures old(id).Some? ==> unchanged(this, db, member)
      ensures old(id).None? ==> id == Some(old(db.nextPaymentId))
      ensures old(id).None? ==> db.payments == old(db.payments) + [PaymentRecord(old(db.nextPaymentId), member, amount)]
      ensures old(id).None? ==> db.nextPaymentId == old(db.nextPaymentId) + 1
      ensures old(id).None? ==> member.balance == old(member.balance) + amount
      ensures old(id).None? ==> member.paid == old(member.paid) + [amount]
      ensures member.fulfilled == old(member.fulfilled)
      ensures db.sales == old(db.sales) && db.nextSaleId == old(db.nextSaleId)
    {
      if id.Some? {
        return;
      }
      member.MakePayment(amount);
      id := Some(db.nextPaymentId);
      db.payments := db.payments + [PaymentRecord(db.nextPaymentId, member, amount)];
      db.nextPaymentId := db.nextPaymentId + 1;
    }

    /**
     * `Payment.delete`: removes the saved row and calls
     * `make_payment(-amount)` once; deleting an unsaved payment raises
     * `AssertionError` and changes nothing.
     */
    method Delete(db: Database) returns (r: Outcome<Error>)
      requires db.Valid()
      modifies this, db, member
      ensures db.Valid()
      ensures old(id).None? ==> r == Fail(AssertionError) && unchanged(this, db, member)
      ensures old(id).Some? ==> r == Pass && id == None
      ensures old(id).Some? ==> db.payments == WithoutPayment(old(db.payments), old(id).value)
      ensures old(id).Some? ==> member.balance == old(member.balance) - amount
      ensures old(id).Some? ==> member.paid == old(member.paid) + [-amount]
      ensures member.fulfilled == old(member.fulfilled)
      ensures db.nextPaymentId == old(db.nextPaymentId)
      ensures db.sales == old(db.sales) && db.nextSaleId == old(db.nextSaleId)
    {
      if id.None? {
        return Fail(AssertionError);
      }
      member.MakePayment(-amount);
      WithoutPaymentValid(db.payments, id.value, db.nextPaymentId);
      db.payments := WithoutPayment(db.payments, id.value);
      id := None;
      r := Pass;
    }
  }
}
