/**
 * The admin actions that compute something: toggling the active flag of
 * the selected products, and the total shown for a sale list.
 */
module Admin {
  import opened Wrappers
  import opened Catalog

  /** A product after the toggle: `active` flipped and its deactivation date cleared. */
  function Toggled(p: Product): Product {
    p.(active := !p.active, deactivateDate := None)
  }

  /** The products after toggling the selected ones (the selection is by id). */
  function ToggleSelection(products: seq<Product>, selected: set<nat>): (r: seq<Product>)
    ensures |r| == |products|
    ensures forall i :: 0 <= i < |products| && products[i].id in selected ==>
      r[i] == products[i].(active := !products[i].active, deactivateDate := None)
    ensures forall i :: 0 <= i < |products| && products[i].id !in selected ==> r[i] == products[i]
  {
    seq(|products|, i requires 0 <= i < |products| =>
      if products[i].id in selected then Toggled(products[i]) else products[i])
  }

  /**
   * `toggle_active_selected_products`: for every selected product, clears
   * the deactivation date, flips `active` and saves it.
   */
  method ToggleActiveSelected(products: array<Product>, selected: set<nat>)
    modifies products
    ensures products[..] == ToggleSelection(old(products[..]), selected)
  {
    for i := 0 to products.Length
      invariant products[..i] == ToggleSelection(old(products[..]), selected)[..i]
      invariant products[i..] == old(products[..])[i..]
    {
      if products[i].id in selected {
        products[i] := Toggled(products[i]);
      }
    }
  }

  /** Toggling twice restores every `active` flag; only the deactivation dates of the selection are lost. */
  lemma ToggleTwice(products: seq<Product>, selected: set<nat>)
    ensures var twice := ToggleSelection(ToggleSelection(products, selected), selected);
      && |twice| == |products|
      && (forall i :: 0 <= i < |products| ==> twice[i].active == products[i].active)
      && (forall i :: 0 <= i < |products| ==>
            twice[i] == if products[i].id in selected then products[i].(deactivateDate := None) else products[i])
  {
  }

  /**
   * Toggling a deactivated product that is not sold out makes it active
   * again at every moment, whatever its old deactivation date was.
   */
  lemma ToggleReactivates(p: Product, sales: seq<SaleFact>, now: int)
    requires !p.active && !SoldOut(p, sales)
    ensures IsActive(Toggled(p), sales, now)
  {
    SoldSinceSameProduct(sales, p, Toggled(p));
  }

  /** Stock counting looks only at a product's id and start date. */
  lemma {:induction false} SoldSinceSameProduct(sales: seq<SaleFact>, p: Product, q: Product)
    requires p.id == q.id && p.startDate == q.startDate
    ensures SoldSince(sales, p) == SoldSince(sales, q)
  {
    if sales != [] {
      SoldSinceSameProduct(sales[1..], p, q);
    }
  }

  /** A sale as the sale-list admin sees it: the list it belongs to and its price. */
  datatype ListedSale = ListedSale(saleList: nat, price: int)

  /** The sum of the prices of the sales on `list`. */
  function ListSum(sales: seq<ListedSale>, list: nat): int {
    if sales == [] then 0
    else ListSum(sales[..|sales| - 1], list) + (if sales[|sales| - 1].saleList == list then sales[|sales| - 1].price else 0)
  }

  /**
   * `SaleListAdmin.get_total`: the sum of the prices of the list's sales;
   * an aggregate over no rows is `None`, not 0.
   */
  function GetTotal(sales: seq<ListedSale>, list: nat): (r: Option<int>)
    ensures r.None? <==> forall i :: 0 <= i < |sales| ==> sales[i].saleList != list
    ensures r.Some? ==> r.value == ListSum(sales, list)
    ensures r.None? ==> ListSum(sales, list) == 0
  {
    if sales == [] then None
    else
      var init := sales[..|sales| - 1];
      var last := sales[|sales| - 1];
      match GetTotal(init, list)
      case None => if last.saleList == list then Some(last.price) else None
      case Some(t) => Some(if last.saleList == list then t + last.price else t)
  }

  /** The total of a list grows by a new sale's price exactly when the sale is on that list. */
  lemma GetTotalAdd(sales: seq<ListedSale>, s: ListedSale, list: nat)
    ensures GetTotal(sales + [s], list) ==
      if s.saleList != list then GetTotal(sales, list)
      else Some(ListSum(sales, list) + s.price)
  {
    assert (sales + [s])[..|sales|] == sales;
  }
}
