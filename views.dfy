/**
 * The kiosk's buying views: the quickbuy line dispatch of `sale`, the
 * product lookup and order of `quicksale`, the one-product purchase of
 * `menu_sale`, and the multibuy hint shown after a purchase.
 */
module Views {
  import opened Wrappers
  import opened Text
  import opened QuickBuy
  import opened Ledger
  import opened Catalog
  import opened Store
  import opened Orders

  /** The page a view renders, with the values the template receives. */
  datatype Page =
    | Index
    | InvalidQuickBuy(correct: string, incorrect: string, errorPtr: string, errorMsg: string)
    | UserNotFound
    | UserMenu(member: Member, bought: Option<Product>, multibuyHint: bool)
    | StregForbud(member: Member)
    | SaleDone(member: Member, products: seq<Product>, cost: int, multibuyHint: bool)

  /** The line under the echoed command: a '~' under every accepted character, then a '^'. */
  function ErrorPointer(parsed: string): (p: string)
    ensures |p| == |parsed| + 1 && p[|parsed|] == '^'
    ensures forall i :: 0 <= i < |parsed| ==> p[i] == '~'
  {
    Repeat('~', |parsed|) + "^"
  }

  /** "Fejl her" shifted four columns left of the caret; Python's repetition by a negative count gives no spaces. */
  function ErrorMessage(parsed: string): (m: string)
    ensures var k := if |parsed| >= 4 then |parsed| - 4 else 0;
      && |m| == k + 8
      && (forall i :: 0 <= i < k ==> m[i] == ' ')
      && m[k..] == "Fejl her"
  {
    Repeat(' ', if |parsed| >= 4 then |parsed| - 4 else 0) + "Fejl her"
  }

  /** The InvalidQuickBuy page for a parse error. */
  function InvalidPage(e: QuickBuyError): Page {
    InvalidQuickBuy(e.parsedPart, e.failedPart, ErrorPointer(e.parsedPart), ErrorMessage(e.parsedPart))
  }

  /**
   * On a stripped, non-empty line that fails to parse, the caret sits
   * under the first character of the rejected text, and that character is
   * not whitespace.
   */
  lemma CaretMarksFailure(raw: string, e: QuickBuyError)
    requires Strip(raw) != [] && Parse(Strip(raw)) == Err(e)
    ensures var line := Strip(raw); var ptr := ErrorPointer(e.parsedPart);
      && |ptr| <= |line| && ptr[|ptr| - 1] == '^'
      && line[|ptr| - 1] == e.failedPart[0] && !IsSpace(line[|ptr| - 1])
  {
    var line := Strip(raw);
    ParseFailsAtNonBlank(line);
    assert line == e.parsedPart + e.failedPart;
    assert line[|e.parsedPart|] == e.failedPart[0];
  }

  /**
   * The product filter of `quicksale` and `menu_sale`: active, not
   * deactivated before now, and in the room or in no room at all. Unlike
   * `Product.is_active` it does not look at stock.
   */
  predicate Eligible(p: Product, room: nat, now: int): (r: bool)
    ensures r ==> p.active && (p.rooms == {} || room in p.rooms)
    ensures p.active && !Expired(p, now) && (p.rooms == {} || room in p.rooms) ==> r
    ensures r && Expired(p, now) ==> p.deactivateDate.value == now
    ensures p.active && p.deactivateDate == Some(now) && (p.rooms == {} || room in p.rooms) ==> r
  {
    p.active
    && (p.deactivateDate.None? || p.deactivateDate.value >= now)
    && (p.rooms == {} || room in p.rooms)
  }

  /** An active product passes the view filter exactly when it is sold in the room. */
  lemma ActiveIsEligibleInItsRooms(p: Product, sales: seq<SaleFact>, room: nat, now: int)
    requires IsActive(p, sales, now)
    ensures Eligible(p, room, now) <==> p.rooms == {} || room in p.rooms
  {
  }

  /**
   * At its deactivation instant a product still passes the view filter,
   * and `execute`'s re-check then refuses it whatever the count.
   */
  lemma DeadlineEligibleButRefused(p: Product, sales: seq<SaleFact>, room: nat, count: nat)
    requires p.active && p.deactivateDate.Some? && (p.rooms == {} || room in p.rooms)
    ensures Eligible(p, room, p.deactivateDate.value)
    ensures !Sellable(OrderItem(p, count), sales, p.deactivateDate.value)
  {
  }

  /** The product table is indexed by primary key. */
  predicate Keyed(table: map<nat, Product>) {
    forall k :: k in table ==> table[k].id == k
  }

  predicate AllEligible(table: map<nat, Product>, ids: seq<nat>, room: nat, now: int) {
    forall i :: 0 <= i < |ids| ==> ids[i] in table && Eligible(table[ids[i]], room, now)
  }

  /** The products the ids name, one per id, in order. */
  function Products(table: map<nat, Product>, ids: seq<nat>): (ps: seq<Product>)
    requires forall i :: 0 <= i < |ids| ==> ids[i] in table
    ensures |ps| == |ids| && forall i :: 0 <= i < |ids| ==> ps[i] == table[ids[i]]
  {
    seq(|ids|, i requires 0 <= i < |ids| => table[ids[i]])
  }

  /**
   * The lookup loop of `quicksale`: fetches the product of every id in
   * turn, and gives up at the first id with no eligible product.
   */
  method Resolve(table: map<nat, Product>, ids: seq<nat>, room: nat, now: int) returns (r: Option<seq<Product>>)
    ensures r.Some? <==> AllEligible(table, ids, room, now)
    ensures r.Some? ==> AllEligible(table, ids, room, now) && r.value == Products(table, ids)
  {
    var products: seq<Product> := [];
    for i := 0 to |ids|
      invariant forall k :: 0 <= k < i ==> ids[k] in table && Eligible(table[ids[k]], room, now)
      invariant |products| == i && forall k :: 0 <= k < i ==> products[k] == table[ids[k]]
    {
      if !(ids[i] in table && Eligible(table[ids[i]], room, now)) {
        return None;
      }
      products := products + [table[ids[i]]];
    }
    return Some(products);
  }

  /** Looked up by key, equal ids give equal products. */
  lemma ProductsConsistent(table: map<nat, Product>, ids: seq<nat>)
    requires Keyed(table) && forall i :: 0 <= i < |ids| ==> ids[i] in table
    ensures Consistent(Products(table, ids))
  {
  }

  /** How many times `id` was typed. */
  function IdCount(ids: seq<nat>, id: nat): nat {
    if ids == [] then 0 else IdCount(ids[..|ids| - 1], id) + (if ids[|ids| - 1] == id then 1 else 0)
  }

  /** Each product appears among the looked-up products as often as its id was typed. */
  lemma {:induction false} ProductsOccurrences(table: map<nat, Product>, ids: seq<nat>, id: nat)
    requires Keyed(table) && forall i :: 0 <= i < |ids| ==> ids[i] in table
    ensures Occurrences(Products(table, ids), id) == IdCount(ids, id)
  {
    if ids != [] {
      var init := ids[..|ids| - 1];
      assert Products(table, ids)[..|ids| - 1] == Products(table, init);
      ProductsOccurrences(table, init, id);
    }
  }

  /**
   * A quickbuy order has one item per typed product, for as many units
   * as its id was typed, and costs the sum of the typed products' prices.
   */
  lemma QuickBuyOrder(table: map<nat, Product>, ids: seq<nat>)
    requires Keyed(table) && forall i :: 0 <= i < |ids| ==> ids[i] in table
    ensures var items := Group(Products(table, ids));
      && DistinctIds(items)
      && (forall k :: 0 <= k < |items| ==> items[k].count == IdCount(ids, items[k].product.id))
      && ItemsTotal(items) == PriceSum(Products(table, ids))
  {
    var ps := Products(table, ids);
    GroupCounts(ps);
    var items := Group(ps);
    forall k | 0 <= k < |items|
      ensures items[k].count == IdCount(ids, items[k].product.id)
    {
      CountOfDistinct(items, k);
      ProductsOccurrences(table, ids, items[k].product.id);
    }
    ProductsConsistent(table, ids);
    GroupTotal(ps);
  }

  /** `Member.objects.get(username=..., active=True)`: the active member with that username. */
  function FindMember(members: seq<Member>, username: string): (r: Option<Member>)
    ensures r.Some? ==> r.value in members && r.value.username == username && r.value.active
    ensures r.None? <==> forall i :: 0 <= i < |members| ==> !(members[i].username == username && members[i].active)
  {
    if members == [] then None
    else if members[0].username == username && members[0].active then Some(members[0])
    else FindMember(members[1..], username)
  }

  /** Seconds back from now in which a purchase counts as recent. */
  const MultibuyWindow: int := 60

  /** Sale `i` is the member's and strictly later than one minute before now. */
  predicate Recent(facts: seq<SaleFact>, member: Member, now: int, i: int) {
    0 <= i < |facts| && facts[i].member == member && facts[i].timestamp > now - MultibuyWindow
  }

  /** The distinct timestamps of the member's recent sales. */
  function RecentTimes(facts: seq<SaleFact>, member: Member, now: int): set<int> {
    set i | 0 <= i < |facts| && Recent(facts, member, now, i) :: facts[i].timestamp
  }

  /** `_multibuy_hint`: more than one distinct recent purchase time. */
  predicate MultibuyHint(now: int, member: Member, facts: seq<SaleFact>): (r: bool)
    ensures r ==> exists i, j ::
      Recent(facts, member, now, i) && Recent(facts, member, now, j) && facts[i].timestamp != facts[j].timestamp
  {
    if |RecentTimes(facts, member, now)| > 1 then
      TwoRecentTimes(now, member, facts);
      true
    else false
  }

  /** Two distinct recent times come from two recent sales. */
  lemma TwoRecentTimes(now: int, member: Member, facts: seq<SaleFact>)
    requires |RecentTimes(facts, member, now)| > 1
    ensures exists i, j ::
      Recent(facts, member, now, i) && Recent(facts, member, now, j) && facts[i].timestamp != facts[j].timestamp
  {
    var s := RecentTimes(facts, member, now);
    var x :| x in s;
    var rest := s - {x};
    assert |rest| == |s| - 1;
    var y :| y in rest;
    var i :| 0 <= i < |facts| && Recent(facts, member, now, i) && facts[i].timestamp == x;
    var j :| 0 <= j < |facts| && Recent(facts, member, now, j) && facts[j].timestamp == y;
    assert facts[i].timestamp != facts[j].timestamp;
  }

  /** The hint is given exactly when two recent sales of the member carry different timestamps. */
  lemma MultibuyHintIff(now: int, member: Member, facts: seq<SaleFact>)
    ensures MultibuyHint(now, member, facts) <==>
      exists i, j :: Recent(facts, member, now, i) && Recent(facts, member, now, j) && facts[i].timestamp != facts[j].timestamp
  {
    var s := RecentTimes(facts, member, now);
    if exists i, j :: Recent(facts, member, now, i) && Recent(facts, member, now, j) && facts[i].timestamp != facts[j].timestamp {
      var i, j :| Recent(facts, member, now, i) && Recent(facts, member, now, j) && facts[i].timestamp != facts[j].timestamp;
      var pair := {facts[i].timestamp, facts[j].timestamp};
      assert pair <= s;
      assert |pair| == 2;
      SubsetCard(pair, s);
    }
    if |s| > 1 {
      TwoRecentTimes(now, member, facts);
    }
  }

  lemma SubsetCard(a: set<int>, b: set<int>)
    requires a <= b
    ensures |a| <= |b|
  {
    assert b == a + (b - a);
  }

  /**
   * Just after a purchase stamped `now`, the hint is given exactly when
   * the member also bought something at another time in the last minute:
   * buying several units in one go does not trigger it.
   */
  lemma HintAfterPurchase(facts: seq<SaleFact>, added: seq<SaleFact>, member: Member, now: int)
    requires added != []
    requires forall k :: 0 <= k < |added| ==> added[k].member == member && added[k].timestamp == now
    ensures MultibuyHint(now, member, facts + added) <==>
      exists i :: Recent(facts, member, now, i) && facts[i].timestamp != now
  {
    var all := facts + added;
    MultibuyHintIff(now, member, all);
    assert Recent(all, member, now, |facts|);
    if exists i :: Recent(facts, member, now, i) && facts[i].timestamp != now {
      var i :| Recent(facts, member, now, i) && facts[i].timestamp != now;
      assert Recent(all, member, now, i) && all[i] == facts[i];
      assert all[|facts|].timestamp == now;
    }
    if exists i, j :: Recent(all, member, now, i) && Recent(all, member, now, j) && all[i].timestamp != all[j].timestamp {
      var i, j :| Recent(all, member, now, i) && Recent(all, member, now, j) && all[i].timestamp != all[j].timestamp;
      if i < |facts| && all[i].timestamp != now {
        assert Recent(facts, member, now, i);
      } else if j < |facts| && all[j].timestamp != now {
        assert Recent(facts, member, now, j);
      } else {
        assert all[i].timestamp == now && all[j].timestamp == now;
      }
    }
  }

  /** Where the `sale` view sends a quickbuy line. */
  datatype Route =
    | ToIndex
    | ToInvalid(error: QuickBuyError)
    | ToUserNotFound
    | ToUserMenu(member: Member)
    | ToQuickSale(member: Member, ids: seq<nat>)

  /**
   * The dispatch of `sale`: a blank line shows the index, a line that does
   * not parse shows the error, an unknown or inactive username shows
   * "user not found", a bare username opens the member's menu, and a
   * username with products buys them.
   */
  function Dispatch(quickbuy: string, members: seq<Member>): (r: Route)
    ensures r == ToIndex <==> forall i :: 0 <= i < |quickbuy| ==> IsSpace(quickbuy[i])
    ensures r.ToInvalid? <==> Strip(quickbuy) != [] && Parse(Strip(quickbuy)).Err?
    ensures r.ToInvalid? ==> r.error == Parse(Strip(quickbuy)).error
    ensures r.ToUserNotFound? <==>
      && Strip(quickbuy) != [] && Parse(Strip(quickbuy)).Ok?
      && forall i :: 0 <= i < |members| ==>
        !(members[i].username == Parse(Strip(quickbuy)).value.username && members[i].active)
    ensures (r.ToUserMenu? || r.ToQuickSale?) ==>
      && Parse(Strip(quickbuy)).Ok?
      && r.member in members && r.member.active
      && r.member.username == Parse(Strip(quickbuy)).value.username
    ensures r.ToUserMenu? ==> Parse(Strip(quickbuy)).value.productIds == []
    ensures r.ToQuickSale? ==> r.ids != [] && r.ids == Parse(Strip(quickbuy)).value.productIds
  {
    var line := Strip(quickbuy);
    if line == [] then ToIndex
    else
      match Parse(line)
      case Err(e) => ToInvalid(e)
      case Ok(req) =>
        match FindMember(members, req.username)
        case None => ToUserNotFound
        case Some(m) => if req.productIds == [] then ToUserMenu(m) else ToQuickSale(m, req.productIds)
  }

  /**
   * `quicksale`: looks up the products, and shows the menu when one is
   * missing; builds and executes the order, and shows the stregforbud page
   * when it is refused; otherwise shows what was bought and what it cost,
   * with the multibuy hint only for a single-unit line.
   */
  method QuickSale(db: Database, table: map<nat, Product>, room: nat, member: Member, ids: seq<nat>, now: int)
    returns (page: Page)
    requires db.Valid() && Keyed(table)
    modifies member, db
    ensures db.Valid() && member.paid == old(member.paid)
    ensures old(db.sales) <= db.sales
    ensures db.payments == old(db.payments) && db.nextPaymentId == old(db.nextPaymentId)
    ensures page.UserMenu? <==> !AllEligible(table, ids, room, now)
    ensures page.UserMenu? ==> page == UserMenu(member, None, false)
    ensures page.StregForbud? ==> page == StregForbud(member)
    ensures page.UserMenu? || page.StregForbud? ==> unchanged(db) && member.balance == old(member.balance)
    ensures page.UserMenu? || page.StregForbud? ==> member.fulfilled == old(member.fulfilled)
    ensures AllEligible(table, ids, room, now) ==>
      var ps := Products(table, ids);
      && (page.StregForbud? <==>
            !AllSellable(Group(ps), old(db.SaleFacts()), now) || old(member.balance) < PriceSum(ps))
      && (page.SaleDone? ==>
            && page == SaleDone(member, ps, PriceSum(ps), MultibuyHint(now, member, db.SaleFacts()) && |ids| == 1)
            && member.balance == old(member.balance) - PriceSum(ps)
            && member.fulfilled == old(member.fulfilled) + [(Pay, PriceSum(ps))]
            && db.SaleFacts() == old(db.SaleFacts()) + UnitSales(Group(ps), member, room, now))
    ensures page.UserMenu? || page.StregForbud? || page.SaleDone?
  {
    var resolved := Resolve(table, ids, room, now);
    if resolved.None? {
      return UserMenu(member, None, false);
    }
    var products := resolved.value;
    QuickBuyOrder(table, ids);
    var order := Order.FromProducts(member, room, products);
    var r := order.Execute(db, now);
    if r.Fail? {
      return StregForbud(member);
    }
    var cost := order.Total();
    var hint := MultibuyHint(now, member, db.SaleFacts()) && |ids| == 1;
    page := SaleDone(member, products, cost, hint);
  }

  /**
   * `menu_sale`: buys one unit of the chosen product; when there is no
   * such eligible product nothing is bought; a refused order shows the
   * stregforbud page. Otherwise the menu is shown again, with the
   * multibuy hint.
   */
  method MenuSale(db: Database, table: map<nat, Product>, room: nat, member: Member, productId: Option<nat>, now: int)
    returns (page: Page)
    requires db.Valid() && Keyed(table)
    modifies member, db
    ensures db.Valid() && member.paid == old(member.paid)
    ensures old(db.sales) <= db.sales
    ensures db.payments == old(db.payments) && db.nextPaymentId == old(db.nextPaymentId)
    ensures page.StregForbud? || page.UserMenu?
    ensures page.UserMenu? ==> page.member == member && page.multibuyHint == MultibuyHint(now, member, db.SaleFacts())
    ensures !(productId.Some? && productId.value in table && Eligible(table[productId.value], room, now)) ==>
      page.UserMenu? && page.bought.None? && unchanged(db) && unchanged(member)
    ensures productId.Some? && productId.value in table && Eligible(table[productId.value], room, now) ==>
      var p := table[productId.value];
      && (page.StregForbud? <==>
            !Sellable(OrderItem(p, 1), old(db.SaleFacts()), now) || old(member.balance) < p.price)
      && (page.StregForbud? ==> unchanged(db) && member.balance == old(member.balance))
      && (page.StregForbud? ==> member.fulfilled == old(member.fulfilled))
      && (page.UserMenu? ==>
            && page.bought == Some(p)
            && member.balance == old(member.balance) - p.price
            && member.fulfilled == old(member.fulfilled) + [(Pay, p.price)]
            && db.SaleFacts() == old(db.SaleFacts()) + [SaleFact(member, p.id, room, p.price, now)])
  {
    if !(productId.Some? && productId.value in table && Eligible(table[productId.value], room, now)) {
      return UserMenu(member, None, MultibuyHint(now, member, db.SaleFacts()));
    }
    var p := table[productId.value];
    var order := Order.FromProducts(member, room, [p]);
    assert [p][..0] == [];
    assert order.items == [OrderItem(p, 1)];
    assert ItemsTotal(order.items) == p.price;
    assert UnitSales(order.items, member, room, now) == [SaleFact(member, p.id, room, p.price, now)];
    var r := order.Execute(db, now);
    if r.Fail? {
      return StregForbud(member);
    }
    page := UserMenu(member, Some(p), MultibuyHint(now, member, db.SaleFacts()));
  }

  /**
   * `sale`: dispatches the quickbuy line; the parse error page echoes the
   * line split at the failure with the caret and the message under it.
   */
  method Sale(db: Database, members: seq<Member>, table: map<nat, Product>, room: nat, quickbuy: string, now: int)
    returns (page: Page)
    requires db.Valid() && Keyed(table)
    modifies db, set m | m in members
    ensures db.Valid()
    ensures old(db.sales) <= db.sales
    ensures db.payments == old(db.payments) && db.nextPaymentId == old(db.nextPaymentId)
    ensures Dispatch(quickbuy, members) == ToIndex ==> page == Index && unchanged(db)
    ensures Dispatch(quickbuy, members).ToInvalid? ==>
      page == InvalidPage(Dispatch(quickbuy, members).error) && unchanged(db)
    ensures Dispatch(quickbuy, members) == ToUserNotFound ==> page == UserNotFound && unchanged(db)
    ensures Dispatch(quickbuy, members).ToUserMenu? ==>
      page == UserMenu(Dispatch(quickbuy, members).member, None, false) && unchanged(db)
    ensures !Dispatch(quickbuy, members).ToQuickSale? ==> forall m :: m in members ==> unchanged(m)
    ensures var d := Dispatch(quickbuy, members);
      d.ToQuickSale? ==>
        && (page.UserMenu? || page.StregForbud? || page.SaleDone?)
        && (forall m :: m in members && m != d.member ==> unchanged(m))
        && d.member.paid == old(d.member.paid)
        && (page.UserMenu? <==> !AllEligible(table, d.ids, room, now))
        && (page.UserMenu? ==> page == UserMenu(d.member, None, false))
        && (page.StregForbud? ==> page == StregForbud(d.member))
        && (page.UserMenu? || page.StregForbud? ==>
              unchanged(db) && d.member.balance == old(d.member.balance) && d.member.fulfilled == old(d.member.fulfilled))
    ensures var d := Dispatch(quickbuy, members);
      d.ToQuickSale? && AllEligible(table, d.ids, room, now) ==>
        var ps := Products(table, d.ids);
        && (page.StregForbud? <==>
              !AllSellable(Group(ps), old(db.SaleFacts()), now) || old(d.member.balance) < PriceSum(ps))
        && (page.SaleDone? ==>
              && page == SaleDone(d.member, ps, PriceSum(ps), MultibuyHint(now, d.member, db.SaleFacts()) && |d.ids| == 1)
              && d.member.balance == old(d.member.balance) - PriceSum(ps)
              && d.member.fulfilled == old(d.member.fulfilled) + [(Pay, PriceSum(ps))]
              && db.SaleFacts() == old(db.SaleFacts()) + UnitSales(Group(ps), d.member, room, now))
  {
    match Dispatch(quickbuy, members)
    case ToIndex => page := Index;
    case ToInvalid(e) => page := InvalidPage(e);
    case ToUserNotFound => page := UserNotFound;
    case ToUserMenu(m) => page := UserMenu(m, None, false);
    case ToQuickSale(m, ids) => page := QuickSale(db, table, room, m, ids, now);
  }
}
