/**
 * Products, the sales recorded against them, and whether a product is
 * currently active: switched on, not past its deactivation time, and not
 * sold out since its start date.
 */
module Catalog {
  import opened Wrappers
  import opened Ledger

  /**
   * A product row. Times are integers on one clock (`start_date` is the
   * instant its day begins); `quantity` is the stock allotted since
   * `start_date`, `None` for unlimited; `rooms` empty means every room.
   */
  datatype Product = Product(
    id: nat,
    price: int,
    active: bool,
    startDate: Option<int>,
    quantity: Option<int>,
    deactivateDate: Option<int>,
    rooms: set<nat>)

  /** What a persisted Sale row records: who bought which product, where, at what price and when. */
  datatype SaleFact = SaleFact(member: Member, product: nat, room: nat, price: int, timestamp: int)

  /** The sale is of `p` and falls on or after `p`'s start date (every sale counts when there is none). */
  predicate CountsToward(f: SaleFact, p: Product) {
    f.product == p.id && (p.startDate.None? || p.startDate.value <= f.timestamp)
  }

  /** The number of sales of `p` since its start date. */
  function SoldSince(sales: seq<SaleFact>, p: Product): (n: nat)
    ensures n <= |sales|
    ensures n == 0 <==> forall i :: 0 <= i < |sales| ==> !CountsToward(sales[i], p)
  {
    if sales == [] then 0
    else (if CountsToward(sales[0], p) then 1 else 0) + SoldSince(sales[1..], p)
  }

  lemma {:induction false} SoldSinceAppend(a: seq<SaleFact>, b: seq<SaleFact>, p: Product)
    ensures SoldSince(a + b, p) == SoldSince(a, p) + SoldSince(b, p)
  {
    if a == [] {
      assert a + b == b;
    } else {
      assert (a + b)[1..] == a[1..] + b;
      SoldSinceAppend(a[1..], b, p);
    }
  }

  predicate Expired(p: Product, now: int) {
    p.deactivateDate.Some? && p.deactivateDate.value <= now
  }

  predicate SoldOut(p: Product, sales: seq<SaleFact>) {
    p.quantity.Some? && SoldSince(sales, p) >= p.quantity.value
  }

  /** `Product.is_active` at time `now`, given the recorded sales. */
  predicate IsActive(p: Product, sales: seq<SaleFact>, now: int): (r: bool)
    ensures !p.active ==> !r
    ensures r <==>
      && p.active
      && (p.deactivateDate.None? || now < p.deactivateDate.value)
      && (p.quantity.None? || SoldSince(sales, p) < p.quantity.value)
  {
    p.active && !Expired(p, now) && !SoldOut(p, sales)
  }

  /**
   * The admin list filter on "activated": `Yes` keeps the active products,
   * `No` the others, in their original order.
   */
  function ActivatedFilter(products: seq<Product>, sales: seq<SaleFact>, now: int, yes: bool): (r: seq<Product>)
    ensures |r| <= |products|
    ensures forall p :: p in r <==> p in products && IsActive(p, sales, now) == yes
  {
    if products == [] then []
    else
      var rest := ActivatedFilter(products[1..], sales, now, yes);
      if IsActive(products[0], sales, now) == yes then [products[0]] + rest else rest
  }

  /** The "Yes" and "No" choices split the product list between them: each product lands in exactly one. */
  lemma {:induction false} ActivatedFilterPartitions(products: seq<Product>, sales: seq<SaleFact>, now: int)
    ensures multiset(ActivatedFilter(products, sales, now, true)) + multiset(ActivatedFilter(products, sales, now, false))
         == multiset(products)
  {
    if products != [] {
      ActivatedFilterPartitions(products[1..], sales, now);
      assert products == [products[0]] + products[1..];
    }
  }
}
