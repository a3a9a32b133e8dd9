/**
 * The cases the repository's unit tests check, replayed on the model:
 * each member's contract states the outcome the test asserts.
 */
module Scenarios {
  import opened Wrappers
  import opened Text
  import opened QuickBuy
  import opened Ledger
  import opened Catalog
  import opened Store
  import opened Orders
  import opened Display
  import opened Views

  /** Midnight of 1 January 2017, the start date the stock tests use, and a later "now". */
  const Start2017: int := 0
  const Now: int := 1000

  /** `PayTransaction(100)` changes by -100, `PayTransaction(90)` plus 10 too; `GetTransaction` likewise by +100. */
  method TransactionChanges() returns (pay: int, payAdded: int, get: int, getAdded: int)
    ensures pay == -100 && payAdded == -100 && get == 100 && getAdded == 100
  {
    var t1 := new Transaction(Pay, 100);
    pay := t1.Change();
    var t2 := new Transaction(Pay, 90);
    t2.Add(10);
    payAdded := t2.Change();
    var t3 := new Transaction(Get, 100);
    get := t3.Change();
    var t4 := new Transaction(Get, 90);
    t4.Add(10);
    getAdded := t4.Change();
  }

  /** A balance of 100 pays 10 and is left with 90. */
  method FulfillAffordable() returns (r: Outcome<Error>, balance: int)
    ensures r == Pass && balance == 90
  {
    var m := new Member("", true, 100);
    var t := new Transaction(Pay, 10);
    r := m.Fulfill(t);
    balance := m.balance;
  }

  /** A balance of 2 cannot pay 10: `StregForbudError`, and the balance stays 2. */
  method FulfillNoMoney() returns (r: Outcome<Error>, balance: int)
    ensures r == Fail(StregForbudError) && balance == 2
  {
    var m := new Member("", true, 2);
    var t := new Transaction(Pay, 10);
    r := m.Fulfill(t);
    balance := m.balance;
  }

  /** Rolling back a payment of 10 on a balance of 2 gives 12. */
  method RollbackCredits() returns (balance: int)
    ensures balance == 12
  {
    var m := new Member("", true, 2);
    var t := new Transaction(Pay, 10);
    m.Rollback(t);
    balance := m.balance;
  }

  /** A balance of 10 covers a payment of 10; a balance of 2 does not. */
  method CanFulfillExamples() returns (exact: bool, short: bool)
    ensures exact && !short
  {
    var t := new Transaction(Pay, 10);
    var rich := new Member("", true, 10);
    var poor := new Member("", true, 2);
    exact := rich.CanFulfill(t);
    short := poor.CanFulfill(t);
  }

  /** Paying 10 into 100 gives 110; paying -10 gives 90. */
  method MakePaymentExamples() returns (up: int, down: int)
    ensures up == 110 && down == 90
  {
    var a := new Member("", true, 100);
    a.MakePayment(10);
    up := a.balance;
    var b := new Member("", true, 100);
    b.MakePayment(-10);
    down := b.balance;
  }

  /** The beer of the order tests: id 1, price 10, active, no stock limit. */
  function Beer(): Product {
    Product(1, 10, true, None, None, None, {})
  }

  /** An active product with no deadline and no stock limit is sellable in any count. */
  lemma UnlimitedSellable(p: Product, count: nat, sales: seq<SaleFact>, now: int)
    requires p.active && p.deactivateDate.None? && p.quantity.None?
    ensures AllSellable([OrderItem(p, count)], sales, now)
  {
    assert Sellable(OrderItem(p, count), sales, now);
  }

  /** The same product twice gives one item counting 2. */
  method OrderFromRepeatedProduct() returns (items: seq<OrderItem>)
    ensures items == [OrderItem(Beer(), 2)]
  {
    var m := new Member("", true, 100);
    var o := Order.FromProducts(m, 0, [Beer(), Beer()]);
    assert [Beer(), Beer()][..1] == [Beer()];
    assert [Beer()][..0] == [];
    items := o.items;
  }

  /** One unit of a product costing 10 totals 10; two total 20. */
  method OrderTotals() returns (single: int, multi: int)
    ensures single == 10 && multi == 20
  {
    var m := new Member("", true, 100);
    var o1 := new Order(m, 0);
    o1.AddItem(OrderItem(Beer(), 1));
    assert o1.items == [OrderItem(Beer(), 1)];
    assert ItemsTotal(o1.items) == LineCost(OrderItem(Beer(), 1)) + ItemsTotal([]);
    single := o1.Total();
    var o2 := new Order(m, 0);
    o2.AddItem(OrderItem(Beer(), 2));
    assert o2.items == [OrderItem(Beer(), 2)];
    assert ItemsTotal(o2.items) == LineCost(OrderItem(Beer(), 2)) + ItemsTotal([]);
    multi := o2.Total();
  }

  /** Executing an order of two units debits once, by their total 20, and records two sales. */
  method ExecuteSingleTransaction() returns (r: Outcome<Error>, balance: int, recorded: nat, ghost debits: seq<(Kind, int)>)
    ensures r == Pass && balance == 80 && recorded == 2
    ensures debits == [(Pay, 20)]
  {
    var m := new Member("", true, 100);
    var db := new Database();
    var o := new Order(m, 0);
    var item := OrderItem(Beer(), 2);
    o.AddItem(item);
    assert o.items == [item];
    assert ItemsTotal([item]) == 20 by {
      assert ItemsTotal([item]) == LineCost(item) + ItemsTotal([]);
    }
    UnlimitedSellable(Beer(), 2, db.SaleFacts(), Now);
    r := o.Execute(db, Now);
    debits := m.fulfilled;
    balance := m.balance;
    assert UnitSales([item], m, 0, Now) == Repeat(UnitSale(item, m, 0, Now), 2) + UnitSales([], m, 0, Now) by {
      assert [item][1..] == [];
    }
    recorded := |db.sales|;
    assert |Facts(db.sales)| == |db.sales|;
  }

  /** A Database holding one saved sale of `p`'s id at `Now`, bought by `m`. */
  method OneSaleSold(m: Member, p: Product) returns (db: Database)
    ensures fresh(db) && db.Valid() && db.SaleFacts() == [SaleFact(m, p.id, 0, 100, Now)]
  {
    db := new Database();
    var s := new Sale(m, p.id, 0, 100, Now);
    var r := s.Save(db);
  }

  /** With 1 of a quantity of 1 sold since the start date, buying 1 more raises `NoMoreInventoryError`. */
  method ExecuteNoneRemaining() returns (r: Outcome<Error>, balance: int)
    ensures r == Fail(NoMoreInventoryError) && balance == 100
  {
    var m := new Member("", true, 100);
    var p := Beer().(startDate := Some(Start2017), quantity := Some(1));
    var db := OneSaleSold(m, p);
    var o := new Order(m, 0);
    o.AddItem(OrderItem(p, 1));
    assert SoldSince(db.SaleFacts(), p) == 1;
    r := o.Execute(db, Now);
    balance := m.balance;
  }

  /** With 1 of a quantity of 2 sold, buying 2 more raises `NoMoreInventoryError`. */
  method ExecuteTooFewRemaining() returns (r: Outcome<Error>, balance: int)
    ensures r == Fail(NoMoreInventoryError) && balance == 100
  {
    var m := new Member("", true, 100);
    var p := Beer().(startDate := Some(Start2017), quantity := Some(2));
    var db := OneSaleSold(m, p);
    var o := new Order(m, 0);
    o.AddItem(OrderItem(p, 2));
    assert SoldSince(db.SaleFacts(), p) == 1;
    r := o.Execute(db, Now);
    balance := m.balance;
  }

  /** A balance that cannot cover the order raises `StregForbudError`; nothing is debited. */
  method ExecuteNoMoney() returns (r: Outcome<Error>, balance: int, recorded: nat, ghost debits: seq<(Kind, int)>)
    ensures r == Fail(StregForbudError) && balance == 15 && recorded == 0
    ensures debits == []
  {
    var m := new Member("", true, 15);
    var db := new Database();
    var o := new Order(m, 0);
    var item := OrderItem(Beer(), 2);
    o.AddItem(item);
    assert o.items == [item];
    assert ItemsTotal([item]) == 20 by {
      assert ItemsTotal([item]) == LineCost(item) + ItemsTotal([]);
    }
    UnlimitedSellable(Beer(), 2, db.SaleFacts(), Now);
    r := o.Execute(db, Now);
    debits := m.fulfilled;
    balance := m.balance;
    recorded := |db.sales|;
  }

  /** Saving a payment of 100 credits it once; saving it again does nothing. */
  method PaymentSaveTwice() returns (afterSave: int, afterResave: int, ghost payments: seq<int>)
    ensures afterSave == 200 && afterResave == 200
    ensures payments == [100]
  {
    var m := new Member("jon", true, 100);
    var db := new Database();
    var pay := new Payment(m, 100);
    pay.Save(db);
    afterSave := m.balance;
    pay.Save(db);
    afterResave := m.balance;
    payments := m.paid;
  }

  /** Deleting a saved payment debits it again; deleting an unsaved payment raises `AssertionError`. */
  method PaymentDelete() returns (afterDelete: int, unsavedDelete: Outcome<Error>, ghost payments: seq<int>)
    ensures afterDelete == 100 && unsavedDelete == Fail(AssertionError)
    ensures payments == [100, -100]
  {
    var m := new Member("jon", true, 100);
    var db := new Database();
    var pay := new Payment(m, 100);
    pay.Save(db);
    var r := pay.Delete(db);
    afterDelete := m.balance;
    var unsaved := new Payment(m, 100);
    unsavedDelete := unsaved.Delete(db);
    payments := m.paid;
  }

  /**
   * Saving a sale assigns an id, a second save raises `RuntimeError`,
   * deleting an unsaved sale raises `RuntimeError`, and deleting a saved
   * one clears the id.
   */
  method SaleSaveAndDelete() returns (savedId: Option<nat>, resave: Outcome<Error>, unsavedDelete: Outcome<Error>, deletedId: Option<nat>)
    ensures savedId.Some? && resave == Fail(RuntimeError)
    ensures unsavedDelete == Fail(RuntimeError) && deletedId.None?
  {
    var m := new Member("jon", true, 100);
    var db := new Database();
    var s := new Sale(m, 1, 0, 100, Now);
    var r := s.Save(db);
    savedId := s.id;
    resave := s.Save(db);
    var other := new Sale(m, 1, 0, 100, Now);
    unsavedDelete := other.Delete(db);
    r := s.Delete(db);
    deletedId := s.id;
  }

  lemma IsActiveExamples(m: Member)
    ensures var plain := Product(1, 100, true, None, None, None, {});
      var oneSold := [SaleFact(m, 1, 0, 100, Now)];
      && IsActive(plain, [], Now)
      && IsActive(plain.(deactivateDate := Some(Now + 3600)), [], Now)
      && !IsActive(plain.(deactivateDate := Some(Now - 3600)), [], Now)
      && !IsActive(plain.(quantity := Some(1), startDate := Some(Start2017)), oneSold, Now)
      && IsActive(plain.(quantity := Some(2), startDate := Some(Start2017)), oneSold, Now)
      && !IsActive(plain.(active := false), [], Now)
      && !IsActive(plain.(active := false, deactivateDate := Some(Now - 3600)), [], Now)
      && !IsActive(plain.(active := false, quantity := Some(1), startDate := Some(Start2017)), oneSold, Now)
      && !IsActive(plain.(active := false, quantity := Some(2), startDate := Some(Start2017)), oneSold, Now)
  {
    var oneSold := [SaleFact(m, 1, 0, 100, Now)];
    assert oneSold[1..] == [];
  }

  lemma PriceDisplayZero()
    ensures PriceDisplay(None) == "0.00 kr." && PriceDisplay(Some(0)) == "0.00 kr."
  {
    assert DigitChar(0) == '0';
    assert NatToString(0) == "0";
  }

  lemma PriceDisplayOne()
    ensures PriceDisplay(Some(1)) == "0.01 kr."
  {
    assert DigitChar(0) == '0' && DigitChar(1) == '1';
    assert NatToString(0) == "0";
  }

  lemma PriceDisplayHundred()
    ensures PriceDisplay(Some(100)) == "1.00 kr."
  {
    assert DigitChar(0) == '0' && DigitChar(1) == '1';
    assert NatToString(1) == "1";
  }

  lemma ActiveStrExamples()
    ensures ActiveStr(true) == "+" && ActiveStr(false) == "-"
  {
  }

  lemma DigitsExamples()
    ensures NatToString(42) == "42" && NatToString(1337) == "1337"
    ensures NatToString(0) == "0" && NatToString(1) == "1" && NatToString(2) == "2" && NatToString(3) == "3"
  {
    assert DigitChar(4) == '4' && DigitChar(2) == '2';
    assert DigitChar(1) == '1' && DigitChar(3) == '3' && DigitChar(7) == '7';
    assert DigitChar(0) == '0';
  }

  lemma RenderOne(x: Item)
    ensures Render([x]) == " " + ItemText(x)
  {
    assert [x][1..] == [];
  }

  lemma RenderTwo(x: Item, y: Item)
    ensures Render([x, y]) == " " + ItemText(x) + " " + ItemText(y)
  {
    assert [x, y][1..] == [y];
    RenderOne(y);
  }

  lemma AllUnitsOne(x: Item)
    ensures AllUnits([x]) == Units(x)
  {
    assert [x][1..] == [];
  }

  lemma AllUnitsTwo(x: Item, y: Item)
    ensures AllUnits([x, y]) == Units(x) + Units(y)
  {
    assert [x, y][1..] == [y];
    AllUnitsOne(y);
  }

  /** A line of one canonical item parses to its units. */
  lemma ParseOneItem(username: string, x: Item, text: string, line: string)
    requires username != [] && NoSpace(username)
    requires ItemText(x) == text && line == username + " " + text
    ensures Parse(line) == Ok(Request(username, Units(x)))
  {
    assert username + Render([x]) == line by {
      RenderOne(x);
    }
    ParseRender(username, [x]);
    AllUnitsOne(x);
  }

  /** A line of two canonical items parses to their units. */
  lemma ParseTwoItems(username: string, x: Item, y: Item, tx: string, ty: string, line: string)
    requires username != [] && NoSpace(username)
    requires ItemText(x) == tx && ItemText(y) == ty
    requires line == username + " " + tx + " " + ty
    ensures Parse(line) == Ok(Request(username, Units(x) + Units(y)))
  {
    var r := Render([x, y]);
    RenderTwo(x, y);
    assert r == " " + tx + " " + ty;
    AllUnitsTwo(x, y);
    ParseRender(username, [x, y]);
    Assoc(username, " " + tx + " ", ty);
    Assoc(username, " " + tx, " ");
    Assoc(username, " ", tx);
  }

  lemma Assoc<T>(a: seq<T>, b: seq<T>, c: seq<T>)
    ensures a + (b + c) == (a + b) + c
  {
  }

  lemma ParseUsernameOnly()
    ensures Parse("test") == Ok(Request("test", []))
  {
    ParseUsernameAlone("test");
  }

  lemma ParseSingle()
    ensures Parse("test 42") == Ok(Request("test", [42]))
  {
    DigitsExamples();
    ParseOneItem("test", Item(42, None), "42", "test 42");
    assert Units(Item(42, None)) == [42];
  }

  /** The items `42` and `1337`: their text and their units. */
  lemma PlainItems()
    ensures ItemText(Item(42, None)) == "42" && ItemText(Item(1337, None)) == "1337"
    ensures Units(Item(42, None)) + Units(Item(1337, None)) == [42, 1337]
    ensures Units(Item(42, None)) + Units(Item(42, None)) == [42, 42]
  {
    DigitsExamples();
    assert Units(Item(42, None)) == [42];
    assert Units(Item(1337, None)) == [1337];
  }

  lemma ParseMulti()
    ensures Parse("test 42 1337") == Ok(Request("test", [42, 1337]))
  {
    PlainItems();
    ParseTwoItems("test", Item(42, None), Item(1337, None), "42", "1337", "test 42 1337");
  }

  lemma ParseRepeated()
    ensures Parse("test 42 42") == Ok(Request("test", [42, 42]))
  {
    PlainItems();
    ParseTwoItems("test", Item(42, None), Item(42, None), "42", "42", "test 42 42");
  }

  lemma ParseQuantifier()
    ensures Parse("test 42:2 1337:3") == Ok(Request("test", [42, 42, 1337, 1337, 1337]))
  {
    DigitsExamples();
    var a, b := Item(42, Some(2)), Item(1337, Some(3));
    assert ItemText(a) == "42:2" && ItemText(b) == "1337:3";
    ParseTwoItems("test", a, b, "42:2", "1337:3", "test 42:2 1337:3");
    QuantifiedUnits();
  }

  lemma QuantifiedUnits()
    ensures Units(Item(42, Some(2))) + Units(Item(1337, Some(3))) == [42, 42, 1337, 1337, 1337]
  {
    var ua, ub := Units(Item(42, Some(2))), Units(Item(1337, Some(3)));
    assert ua == [42, 42];
    assert ub == [1337, 1337, 1337];
  }

  lemma ParseZeroQuantifier()
    ensures Parse("test 42:0") == Ok(Request("test", []))
  {
    DigitsExamples();
    var z := Item(42, Some(0));
    assert ItemText(z) == "42:0";
    ParseOneItem("test", z, "42:0", "test 42:0");
  }

  lemma RejectItem(username: string, bad: string, after: string, line: string)
    requires username != [] && NoSpace(username) && bad != [] && NoSpace(bad) && ParseItem(bad).None?
    requires after == [] || IsSpace(after[0])
    requires line == username + " " + bad + after
    ensures Parse(line).Err?
  {
    ParseFailsAt(username, [], bad, after);
    assert username + Render([]) == username;
  }

  lemma RejectNegativeQuantifier()
    ensures Parse("test 42:-1 1337:3").Err?
  {
    assert ParseNat("-1").None? by {
      assert !IsDigit('-');
    }
    assert ColonAt("42:-1") == 2;
    RejectItem("test", "42:-1", " 1337:3", "test 42:-1 1337:3");
  }

  lemma RejectMissingQuantifier()
    ensures Parse("test 42: 1337:3").Err?
  {
    assert ColonAt("42:") == 2;
    RejectItem("test", "42:", " 1337:3", "test 42: 1337:3");
  }

  lemma RejectLetterQuantifier()
    ensures Parse("test 42:a 1337:3").Err?
  {
    assert ParseNat("a").None? by {
      assert !IsDigit('a');
    }
    assert ColonAt("42:a") == 2;
    RejectItem("test", "42:a", " 1337:3", "test 42:a 1337:3");
  }

  lemma RejectLetterId()
    ensures Parse("test a:2 1337:3").Err?
  {
    assert ParseNat("a").None? by {
      assert !IsDigit('a');
    }
    assert ColonAt("a:2") == 1;
    RejectItem("test", "a:2", " 1337:3", "test a:2 1337:3");
  }

  lemma RejectLetterItem()
    ensures Parse("jokke a").Err?
  {
    assert ParseNat("a").None? by {
      assert !IsDigit('a');
    }
    assert ColonAt("a") == 1;
    RejectItem("jokke", "a", "", "jokke a");
  }

  /** A blank line shows the index. */
  lemma DispatchBlank(members: seq<Member>)
    ensures Dispatch("", members) == ToIndex
  {
  }

  /** Where a line that is already stripped and parses to `req` is routed. */
  lemma DispatchParsed(line: string, members: seq<Member>, req: Request)
    requires line != [] && Strip(line) == line && Parse(line) == Ok(req)
    ensures FindMember(members, req.username).None? ==> Dispatch(line, members) == ToUserNotFound
    ensures FindMember(members, req.username).Some? && req.productIds == [] ==>
              Dispatch(line, members) == ToUserMenu(FindMember(members, req.username).value)
    ensures FindMember(members, req.username).Some? && req.productIds != [] ==>
              Dispatch(line, members) == ToQuickSale(FindMember(members, req.username).value, req.productIds)
  {
  }

  /** A bare known username opens the member's menu. */
  lemma DispatchUsernameOnly(jokke: Member)
    requires jokke.username == "jokke" && jokke.active
    ensures Dispatch("jokke", [jokke]) == ToUserMenu(jokke)
  {
    assert NoSpace("jokke");
    assert FindMember([jokke], "jokke") == Some(jokke);
    DispatchBareUsername("jokke", [jokke]);
  }

  /** An unknown username shows "user not found". */
  lemma DispatchUnknownUser(jokke: Member)
    requires jokke.username == "jokke" && jokke.active
    ensures Dispatch("notinthere", [jokke]) == ToUserNotFound
  {
    assert NoSpace("notinthere");
    assert FindMember([jokke], "notinthere").None? by {
      assert jokke.username[0] != "notinthere"[0];
    }
    DispatchBareUsername("notinthere", [jokke]);
  }

  /** A bare username routes by the member lookup alone. */
  lemma DispatchBareUsername(username: string, members: seq<Member>)
    requires username != [] && NoSpace(username)
    ensures FindMember(members, username).None? ==> Dispatch(username, members) == ToUserNotFound
    ensures FindMember(members, username).Some? ==>
              Dispatch(username, members) == ToUserMenu(FindMember(members, username).value)
  {
    StripNoSpaceEnds(username);
    ParseUsernameAlone(username);
    DispatchParsed(username, members, Request(username, []));
  }

  /** A product id that is not a number shows the parse error page. */
  lemma DispatchMalformed(members: seq<Member>)
    ensures Dispatch("jokke a", members).ToInvalid?
  {
    StripNoSpaceEnds("jokke a");
    RejectLetterItem();
  }

  /** `jokke 1` buys product 1 for jokke. */
  lemma DispatchQuickSale(jokke: Member)
    requires jokke.username == "jokke" && jokke.active
    ensures Dispatch("jokke 1", [jokke]) == ToQuickSale(jokke, [1])
  {
    var one := Item(1, None);
    assert ItemText(one) == "1" by {
      DigitsExamples();
    }
    assert Units(one) == [1];
    assert FindMember([jokke], "jokke") == Some(jokke);
    DispatchOneItem("jokke", one, [jokke], "jokke 1");
  }

  /** A known username followed by one item that stands for some units goes to quicksale. */
  lemma DispatchOneItem(username: string, x: Item, members: seq<Member>, line: string)
    requires username != [] && NoSpace(username) && Units(x) != []
    requires FindMember(members, username).Some?
    requires line == username + " " + ItemText(x)
    ensures Dispatch(line, members) == ToQuickSale(FindMember(members, username).value, Units(x))
  {
    var text := ItemText(x);
    ItemTextParts(x);
    assert line[|line| - 1] == text[|text| - 1];
    StripNoSpaceEnds(line);
    ParseOneItem(username, x, text, line);
    DispatchParsed(line, members, Request(username, Units(x)));
  }

  /** A line that neither starts nor ends with whitespace is its own stripped form. */
  lemma StripNoSpaceEnds(s: string)
    requires s != [] && !IsSpace(s[0]) && !IsSpace(s[|s| - 1])
    ensures Strip(s) == s
  {
    assert SpanSpaces(s) == 0;
    assert s[0..] == s;
  }

  /** Limfjordsporter: product 1, 9.00 kr., sold in every room. */
  function Limfjordsporter(): Product {
    Product(1, 900, true, None, None, None, {})
  }

  /** A product table holding only Limfjordsporter. */
  function OneProductTable(): map<nat, Product> {
    map[1 := Limfjordsporter()]
  }

  /** `jokke 1` with a balance of 1000: the sale page shows the product and 900 is debited once. */
  method QuickSaleSuccess() returns (page: Page, balance: int, ghost debits: seq<(Kind, int)>)
    ensures page.SaleDone? && page.products == [Limfjordsporter()] && page.cost == 900 && balance == 100
    ensures debits == [(Pay, 900)]
  {
    var jokke := new Member("jokke", true, 1000);
    var db := new Database();
    assert Group([Limfjordsporter()]) == [OrderItem(Limfjordsporter(), 1)] by {
      assert [Limfjordsporter()][..0] == [];
    }
    assert Products(OneProductTable(), [1]) == [Limfjordsporter()];
    assert PriceSum([Limfjordsporter()]) == 900 by {
      assert [Limfjordsporter()][..0] == [];
    }
    UnlimitedSellable(Limfjordsporter(), 1, db.SaleFacts(), Now);
    page := QuickSale(db, OneProductTable(), 1, jokke, [1], Now);
    debits := jokke.fulfilled;
    balance := jokke.balance;
  }

  /** `jokke 99`, an id with no product: the menu is shown and nothing is debited. */
  method QuickSaleWrongProduct() returns (page: Page, balance: int)
    ensures page.UserMenu? && page.bought.None? && !page.multibuyHint && balance == 1000
  {
    var jokke := new Member("jokke", true, 1000);
    var db := new Database();
    page := QuickSale(db, OneProductTable(), 1, jokke, [99], Now);
    balance := jokke.balance;
  }

  /** A product sold only in room 2, bought in room 1: the menu is shown and nothing is debited. */
  method QuickSaleNotInRoom() returns (page: Page, balance: int)
    ensures page.UserMenu? && page.bought.None? && !page.multibuyHint && balance == 1000
  {
    var jokke := new Member("jokke", true, 1000);
    var db := new Database();
    var p := Limfjordsporter().(id := 4, rooms := {2});
    var table := map[4 := p];
    assert !Eligible(p, 1, Now);
    assert !AllEligible(table, [4], 1, Now) by {
      assert [4][0] == 4 && table[4] == p;
    }
    page := QuickSale(db, table, 1, jokke, [4], Now);
    balance := jokke.balance;
  }

  /** A product whose one unit of stock is sold: not the sale page, and the balance is unchanged. */
  method QuickSaleOutOfStock() returns (page: Page, balance: int)
    ensures page.StregForbud? && balance == 1000
  {
    var jokke := new Member("jokke", true, 1000);
    var p := Limfjordsporter().(id := 3, startDate := Some(Start2017), quantity := Some(1));
    var db := OneSaleSold(jokke, p);
    assert SoldSince(db.SaleFacts(), p) == 1;
    assert Group([p]) == [OrderItem(p, 1)] by {
      assert [p][..0] == [];
    }
    assert Products(map[3 := p], [3]) == [p];
    page := QuickSale(db, map[3 := p], 1, jokke, [3], Now);
    balance := jokke.balance;
  }

  /** `menu_sale` of a product the balance cannot cover: the stregforbud page, and `fulfill` is not called. */
  method MenuSaleNoMoney() returns (page: Page, balance: int, ghost debits: seq<(Kind, int)>)
    ensures page.StregForbud? && balance == 500
    ensures debits == []
  {
    var m := new Member("jokke", true, 500);
    var db := new Database();
    page := MenuSale(db, OneProductTable(), 1, m, Some(1), Now);
    debits := m.fulfilled;
    balance := m.balance;
  }

  /** `menu_sale` of an affordable product: the menu again, showing the product bought, after one debit of 900. */
  method MenuSaleSuccess() returns (page: Page, balance: int, ghost debits: seq<(Kind, int)>)
    ensures page.UserMenu? && page.bought == Some(Limfjordsporter()) && balance == 100
    ensures debits == [(Pay, 900)]
  {
    var m := new Member("jokke", true, 1000);
    var db := new Database();
    page := MenuSale(db, OneProductTable(), 1, m, Some(1), Now);
    debits := m.fulfilled;
    balance := m.balance;
  }
}
