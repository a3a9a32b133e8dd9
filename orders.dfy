/**
 * Orders: a list of products grouped into counted line items, the order's
 * total, and `execute`, which checks every item's stock, then the member's
 * funds, and only then makes one debit for the whole order and records the
 * sales.
 */
module Orders {
  import opened Wrappers
  import opened Text
  import opened Ledger
  import opened Catalog
  import opened Store

  /** An `OrderItem`: a product and how many units of it are ordered. */
  datatype OrderItem = OrderItem(product: Product, count: nat)

  function LineCost(item: OrderItem): int {
    item.product.price * item.count
  }

  /** `Order.total()`: the sum of price times count over the items. */
  function ItemsTotal(items: seq<OrderItem>): int {
    if items == [] then 0 else LineCost(items[0]) + ItemsTotal(items[1..])
  }

  /** With no negative price, every line's cost is part of the total. */
  lemma {:induction false} ItemsTotalBounds(items: seq<OrderItem>)
    ensures (forall i :: 0 <= i < |items| ==> items[i].product.price >= 0) ==>
      forall i :: 0 <= i < |items| ==> 0 <= LineCost(items[i]) <= ItemsTotal(items)
  {
    if items != [] && forall i :: 0 <= i < |items| ==> items[i].product.price >= 0 {
      ItemsTotalBounds(items[1..]);
      forall i | 0 <= i < |items|
        ensures 0 <= LineCost(items[i])
      {
        assert items[i].product.price * items[i].count >= 0;
      }
      forall i | 1 <= i < |items|
        ensures LineCost(items[i]) <= ItemsTotal(items)
      {
        assert items[1..][i - 1] == items[i];
      }
    }
  }

  /** The sum of the prices of a list of products, one term per product. */
  function PriceSum(products: seq<Product>): int {
    if products == [] then 0 else PriceSum(products[..|products| - 1]) + products[|products| - 1].price
  }

  /** How many of `products` have id `id`. */
  function Occurrences(products: seq<Product>, id: nat): nat {
    if products == [] then 0
    else Occurrences(products[..|products| - 1], id) + (if products[|products| - 1].id == id then 1 else 0)
  }

  /** The number of units of product `id` the items order. */
  function CountOf(items: seq<OrderItem>, id: nat): nat {
    if items == [] then 0
    else (if items[0].product.id == id then items[0].count else 0) + CountOf(items[1..], id)
  }

  /** No two items are for the same product. */
  predicate DistinctIds(items: seq<OrderItem>) {
    forall i, j :: 0 <= i < j < |items| ==> items[i].product.id != items[j].product.id
  }

  /** Products with the same id are the same row. */
  predicate Consistent(products: seq<Product>) {
    forall i, j :: 0 <= i < |products| && 0 <= j < |products| && products[i].id == products[j].id ==>
      products[i] == products[j]
  }

  /** One more unit of `p`: its item's count goes up, or a new item is added at the end. */
  function Tally(items: seq<OrderItem>, p: Product): (r: seq<OrderItem>)
    ensures |r| == |items| || |r| == |items| + 1
    ensures r != []
  {
    if items == [] then [OrderItem(p, 1)]
    else if items[0].product.id == p.id then [items[0].(count := items[0].count + 1)] + items[1..]
    else [items[0]] + Tally(items[1..], p)
  }

  /**
   * `Counter(products).items()`: one item per distinct product, in order
   * of first appearance, counting its occurrences.
   */
  function Group(products: seq<Product>): (r: seq<OrderItem>)
    ensures |r| <= |products|
    ensures r == [] <==> products == []
  {
    if products == [] then [] else Tally(Group(products[..|products| - 1]), products[|products| - 1])
  }

  lemma {:induction false} TallyCount(items: seq<OrderItem>, p: Product, id: nat)
    ensures CountOf(Tally(items, p), id) == CountOf(items, id) + (if p.id == id then 1 else 0)
  {
    if items != [] && items[0].product.id != p.id {
      TallyCount(items[1..], p, id);
    } else if items != [] {
      assert Tally(items, p)[1..] == items[1..];
    }
  }

  lemma {:induction false} TallyKeeps(items: seq<OrderItem>, p: Product)
    requires DistinctIds(items)
    requires forall i :: 0 <= i < |items| ==> items[i].count > 0
    ensures DistinctIds(Tally(items, p))
    ensures forall i :: 0 <= i < |Tally(items, p)| ==> Tally(items, p)[i].count > 0
    ensures forall i :: 0 <= i < |Tally(items, p)| ==>
      Tally(items, p)[i].product == p || exists k :: 0 <= k < |items| && Tally(items, p)[i].product == items[k].product
  {
    if items != [] && items[0].product.id != p.id {
      TallyKeeps(items[1..], p);
      var r := Tally(items, p);
      var rest := Tally(items[1..], p);
      assert r == [items[0]] + rest;
      forall i | 0 <= i < |rest|
        ensures rest[i].product.id != items[0].product.id
      {
        if rest[i].product != p {
          var k :| 0 <= k < |items[1..]| && rest[i].product == items[1..][k].product;
          assert items[k + 1].product == rest[i].product;
        }
      }
      forall i | 0 <= i < |r|
        ensures r[i].product == p || exists k :: 0 <= k < |items| && r[i].product == items[k].product
      {
        if i > 0 && r[i].product != p {
          assert r[i] == rest[i - 1];
          var k :| 0 <= k < |items[1..]| && rest[i - 1].product == items[1..][k].product;
          assert items[k + 1].product == r[i].product;
        } else if i == 0 {
          assert r[0].product == items[0].product;
        }
      }
    } else if items != [] {
      var r := Tally(items, p);
      forall i | 0 <= i < |r|
        ensures exists k :: 0 <= k < |items| && r[i].product == items[k].product
      {
        assert r[i].product == items[i].product;
      }
    }
  }

  /**
   * `Order.from_products` groups like `Counter`: each product id gets
   * exactly one item, whose count is the number of times it occurs, and
   * every item is for a product of the list.
   */
  lemma {:induction false} GroupCounts(products: seq<Product>)
    ensures DistinctIds(Group(products))
    ensures forall id: nat :: CountOf(Group(products), id) == Occurrences(products, id)
    ensures forall i :: 0 <= i < |Group(products)| ==> Group(products)[i].count > 0
    ensures forall i :: 0 <= i < |Group(products)| ==> Group(products)[i].product in products
  {
    if products != [] {
      var init := products[..|products| - 1];
      var last := products[|products| - 1];
      GroupCounts(init);
      TallyKeeps(Group(init), last);
      forall id: nat
        ensures CountOf(Group(products), id) == Occurrences(products, id)
      {
        TallyCount(Group(init), last, id);
      }
      var g := Group(products);
      forall i | 0 <= i < |g|
        ensures g[i].product in products
      {
        if g[i].product != last {
          var k :| 0 <= k < |Group(init)| && g[i].product == Group(init)[k].product;
          assert Group(init)[k].product in init;
        }
      }
    }
  }

  /** An item's count, when the items are distinct, is all the units of its product. */
  lemma {:induction false} CountOfDistinct(items: seq<OrderItem>, k: nat)
    requires DistinctIds(items) && k < |items|
    ensures CountOf(items, items[k].product.id) == items[k].count
  {
    if k == 0 {
      CountOfAbsent(items[1..], items[0].product.id);
    } else {
      CountOfDistinct(items[1..], k - 1);
    }
  }

  lemma {:induction false} CountOfAbsent(items: seq<OrderItem>, id: nat)
    requires forall i :: 0 <= i < |items| ==> items[i].product.id != id
    ensures CountOf(items, id) == 0
  {
    if items != [] {
      CountOfAbsent(items[1..], id);
    }
  }

  lemma {:induction false} TallyTotal(items: seq<OrderItem>, p: Product)
    requires forall i :: 0 <= i < |items| && items[i].product.id == p.id ==> items[i].product.price == p.price
    ensures ItemsTotal(Tally(items, p)) == ItemsTotal(items) + p.price
  {
    if items != [] {
      if items[0].product.id == p.id {
        assert Tally(items, p)[1..] == items[1..];
      } else {
        TallyTotal(items[1..], p);
      }
    }
  }

  /** Grouping does not change what the products cost together. */
  lemma {:induction false} GroupTotal(products: seq<Product>)
    requires Consistent(products)
    ensures ItemsTotal(Group(products)) == PriceSum(products)
  {
    if products != [] {
      var init := products[..|products| - 1];
      var last := products[|products| - 1];
      assert Consistent(init);
      GroupTotal(init);
      GroupCounts(init);
      forall i | 0 <= i < |Group(init)| && Group(init)[i].product.id == last.id
        ensures Group(init)[i].product.price == last.price
      {
        var j :| 0 <= j < |init| && init[j] == Group(init)[i].product;
        assert products[j] == init[j];
      }
      TallyTotal(Group(init), last);
    }
  }

  lemma {:induction false} ItemsTotalAppend(a: seq<OrderItem>, b: seq<OrderItem>)
    ensures ItemsTotal(a + b) == ItemsTotal(a) + ItemsTotal(b)
  {
    if a == [] {
      assert a + b == b;
    } else {
      assert (a + b)[1..] == a[1..] + b;
      ItemsTotalAppend(a[1..], b);
    }
  }

  /** The item has stock left for its count: no quantity, or sales since the start date plus the count stay within it. */
  predicate InStock(item: OrderItem, sales: seq<SaleFact>) {
    item.product.quantity.None? || SoldSince(sales, item.product) + item.count <= item.product.quantity.value
  }

  predicate AllInStock(items: seq<OrderItem>, sales: seq<SaleFact>) {
    forall i :: 0 <= i < |items| ==> InStock(items[i], sales)
  }

  /**
   * The re-check `execute` makes of one item: its product is still active
   * at `now` (switched on, not past its deactivation time, not sold out)
   * and has stock left for the count.
   */
  predicate Sellable(item: OrderItem, sales: seq<SaleFact>, now: int) {
    IsActive(item.product, sales, now) && InStock(item, sales)
  }

  predicate AllSellable(items: seq<OrderItem>, sales: seq<SaleFact>, now: int) {
    forall i :: 0 <= i < |items| ==> Sellable(items[i], sales, now)
  }

  /**
   * An item is sellable exactly when its product is switched on, its
   * deactivation time lies after `now`, and the sales since its start date
   * plus the count stay within its quantity, with at least one unit left
   * even for an empty count.
   */
  lemma SellableIff(item: OrderItem, sales: seq<SaleFact>, now: int)
    ensures Sellable(item, sales, now) <==>
      && item.product.active
      && (item.product.deactivateDate.None? || now < item.product.deactivateDate.value)
      && (item.product.quantity.None? ||
            (SoldSince(sales, item.product) + item.count <= item.product.quantity.value
             && SoldSince(sales, item.product) < item.product.quantity.value))
  {
  }

  /** The Sale rows a successful order records: one per unit, at the product's price, stamped `now`. */
  function UnitSales(items: seq<OrderItem>, member: Member, room: nat, now: int): seq<SaleFact> {
    if items == [] then []
    else Repeat(UnitSale(items[0], member, room, now), items[0].count) + UnitSales(items[1..], member, room, now)
  }

  function UnitSale(item: OrderItem, member: Member, room: nat, now: int): SaleFact {
    SaleFact(member, item.product.id, room, item.product.price, now)
  }

  lemma {:induction false} UnitSalesAppend(a: seq<OrderItem>, b: seq<OrderItem>, member: Member, room: nat, now: int)
    ensures UnitSales(a + b, member, room, now) == UnitSales(a, member, room, now) + UnitSales(b, member, room, now)
  {
    if a == [] {
      assert a + b == b;
    } else {
      assert (a + b)[1..] == a[1..] + b;
      UnitSalesAppend(a[1..], b, member, room, now);
    }
  }

  lemma {:induction false} SoldSinceRepeat(f: SaleFact, n: nat, p: Product)
    ensures SoldSince(Repeat(f, n), p) == if CountsToward(f, p) then n else 0
  {
    if n > 0 {
      assert Repeat(f, n)[1..] == Repeat(f, n - 1);
      SoldSinceRepeat(f, n - 1, p);
    }
  }

  /** The units an order records count toward a product's stock exactly when they fall on or after its start date. */
  lemma {:induction false} SoldSinceUnitSales(items: seq<OrderItem>, member: Member, room: nat, now: int, p: Product)
    ensures SoldSince(UnitSales(items, member, room, now), p)
         == if p.startDate.None? || p.startDate.value <= now then CountOf(items, p.id) else 0
  {
    if items != [] {
      SoldSinceAppend(Repeat(UnitSale(items[0], member, room, now), items[0].count), UnitSales(items[1..], member, room, now), p);
      SoldSinceRepeat(UnitSale(items[0], member, room, now), items[0].count, p);
      SoldSinceUnitSales(items[1..], member, room, now, p);
    }
  }

  /**
   * An order with one item per product that passes the stock check never
   * sells a product past its quantity.
   */
  lemma ExecuteNeverOversells(items: seq<OrderItem>, sales: seq<SaleFact>, member: Member, room: nat, now: int, k: nat)
    requires DistinctIds(items) && AllInStock(items, sales) && k < |items|
    requires items[k].product.quantity.Some?
    ensures SoldSince(sales + UnitSales(items, member, room, now), items[k].product) <= items[k].product.quantity.value
  {
    var p := items[k].product;
    SoldSinceAppend(sales, UnitSales(items, member, room, now), p);
    SoldSinceUnitSales(items, member, room, now, p);
    CountOfDistinct(items, k);
    assert InStock(items[k], sales);
  }

  lemma RepeatSnoc<T>(x: T, n: nat)
    ensures Repeat(x, n + 1) == Repeat(x, n) + [x]
  {
    if n > 0 {
      RepeatSnoc(x, n - 1);
    }
  }

  lemma FactsAppend(rows: seq<SaleRecord>, row: SaleRecord)
    ensures Facts(rows + [row]) == Facts(rows) + [row.fact]
  {
  }

  class Order {
    const member: Member
    const room: nat
    var items: seq<OrderItem>

    constructor (member: Member, room: nat)
      ensures this.member == member && this.room == room && items == []
    {
      this.member, this.room := member, room;
      items := [];
    }

    /** `order.items.add(item)`. */
    method AddItem(item: OrderItem)
      modifies this
      ensures items == old(items) + [item]
    {
      items := items + [item];
    }

    /** `Order.from_products`: an order for the member in the room with the products grouped into items. */
    static method FromProducts(member: Member, room: nat, products: seq<Product>) returns (o: Order)
      ensures fresh(o) && o.member == member && o.room == room
      ensures o.items == Group(products)
    {
      o := new Order(member, room);
      o.items := Group(products);
    }

    function Total(): (r: int)
      reads this
      ensures (forall i :: 0 <= i < |items| ==> items[i].product.price >= 0) ==>
        forall i :: 0 <= i < |items| ==> 0 <= LineCost(items[i]) <= r
    {
      ItemsTotalBounds(items);
      ItemsTotal(items)
    }

    /**
     * `Order.execute`: raises `NoMoreInventoryError` when some item lacks
     * stock, else raises `StregForbudError` when the balance cannot cover
     * the total, in both cases changing nothing; otherwise fulfils one
     * `PayTransaction` of the total and records one Sale per unit.
     */
    method Execute(db: Database, now: int) returns (r: Outcome<Error>)
      requires db.Valid()
      modifies member, db
      ensures db.Valid()
      ensures r == Fail(NoMoreInventoryError) <==> !AllSellable(items, old(db.SaleFacts()), now)
      ensures r == Fail(StregForbudError) <==>
        AllSellable(items, old(db.SaleFacts()), now) && old(member.balance) < ItemsTotal(items)
      ensures r.Fail? ==> r.error == NoMoreInventoryError || r.error == StregForbudError
      ensures r.Fail? ==> member.balance == old(member.balance) && member.fulfilled == old(member.fulfilled)
      ensures r.Fail? ==> unchanged(db)
      ensures r.Pass? ==> member.balance == old(member.balance) - ItemsTotal(items) >= 0
      ensures r.Pass? ==> member.fulfilled == old(member.fulfilled) + [(Pay, ItemsTotal(items))]
      ensures r.Pass? ==> db.SaleFacts() == old(db.SaleFacts()) + UnitSales(items, member, room, now)
      ensures old(db.sales) <= db.sales
      ensures db.payments == old(db.payments) && db.nextPaymentId == old(db.nextPaymentId)
      ensures member.paid == old(member.paid)
    {
      var sold := db.SaleFacts();
      var inStock := CheckStock(sold, now);
      if !inStock {
        return Fail(NoMoreInventoryError);
      }
      var t := TotalTransaction();
      if !member.CanFulfill(t) {
        return Fail(StregForbudError);
      }
      r := member.Fulfill(t);
      RecordSales(db, now);
    }

    /** The stock check of `execute`: every item's product is still active and has stock for its count. */
    method CheckStock(sold: seq<SaleFact>, now: int) returns (ok: bool)
      ensures ok == AllSellable(items, sold, now)
    {
      for i := 0 to |items|
        invariant forall k :: 0 <= k < i ==> Sellable(items[k], sold, now)
      {
        if !Sellable(items[i], sold, now) {
          return false;
        }
      }
      return true;
    }

    /** A fresh `PayTransaction` to which each item's line cost has been added. */
    method TotalTransaction() returns (t: Transaction)
      ensures fresh(t) && t.kind == Pay && t.amount == ItemsTotal(items)
    {
      t := new Transaction(Pay, 0);
      for i := 0 to |items|
        invariant fresh(t) && t.kind == Pay && t.amount == ItemsTotal(items[..i])
      {
        ItemsTotalAppend(items[..i], [items[i]]);
        assert items[..i + 1] == items[..i] + [items[i]];
        t.Add(LineCost(items[i]));
      }
      assert items[..|items|] == items;
    }

    /** Saves one Sale per unit of every item, in item order. */
    method RecordSales(db: Database, now: int)
      requires db.Valid()
      modifies db
      ensures db.Valid()
      ensures db.SaleFacts() == old(db.SaleFacts()) + UnitSales(items, member, room, now)
      ensures old(db.sales) <= db.sales
      ensures db.payments == old(db.payments) && db.nextPaymentId == old(db.nextPaymentId)
    {
      ghost var facts0 := db.SaleFacts();
      for i := 0 to |items|
        invariant db.Valid()
        invariant db.SaleFacts() == facts0 + UnitSales(items[..i], member, room, now)
        invariant old(db.sales) <= db.sales
        invariant db.payments == old(db.payments) && db.nextPaymentId == old(db.nextPaymentId)
      {
        var item := items[i];
        RecordUnits(db, item, now);
        UnitSalesAppend(items[..i], [item], member, room, now);
        assert items[..i + 1] == items[..i] + [item];
        assert UnitSales([item], member, room, now) == Repeat(UnitSale(item, member, room, now), item.count) + [];
      }
      assert items[..|items|] == items;
    }

    /** Saves one Sale per unit of the item. */
    method RecordUnits(db: Database, item: OrderItem, now: int)
      requires db.Valid()
      modifies db
      ensures db.Valid()
      ensures db.SaleFacts() == old(db.SaleFacts()) + Repeat(UnitSale(item, member, room, now), item.count)
      ensures old(db.sales) <= db.sales
      ensures db.payments == old(db.payments) && db.nextPaymentId == old(db.nextPaymentId)
    {
      ghost var facts0 := db.SaleFacts();
      for j := 0 to item.count
        invariant db.Valid()
        invariant db.SaleFacts() == facts0 + Repeat(UnitSale(item, member, room, now), j)
        invariant old(db.sales) <= db.sales
        invariant db.payments == old(db.payments) && db.nextPaymentId == old(db.nextPaymentId)
      {
        var s := new Sale(member, item.product.id, room, item.product.price, now);
        FactsAppend(db.sales, SaleRecord(db.nextSaleId, s.Fact()));
        var saved := s.Save(db);
        RepeatSnoc(UnitSale(item, member, room, now), j);
      }
    }
  }
}
