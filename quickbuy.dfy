/**
 * The quickbuy command parser: `username item*`, where an item is a product
 * id with an optional `:quantity` and items are separated by whitespace.
 * A line parses to the username and one product id per unit bought; a
 * malformed item fails with a `QuickBuyError` that splits the line at the
 * failing item, so the caller can point at it.
 */
module QuickBuy {
  import opened Wrappers
  import opened Text

  /** The text accepted before the failing item, and the text from that item on. */
  datatype QuickBuyError = QuickBuyError(parsedPart: string, failedPart: string)

  /** A parsed line: who buys, and one product id per unit bought. */
  datatype Request = Request(username: string, productIds: seq<nat>)

  /** One item as it can be written: a product id and an optional quantity. */
  datatype Item = Item(id: nat, quantity: Option<nat>)

  /** The product ids an item stands for: its id, quantity times (once when no quantity is given). */
  function Units(it: Item): seq<nat> {
    Repeat(it.id, match it.quantity case None => 1 case Some(q) => q)
  }

  function AllUnits(items: seq<Item>): seq<nat> {
    if items == [] then [] else Units(items[0]) + AllUnits(items[1..])
  }

  /** The canonical text of an item: `id` or `id:quantity`. */
  function ItemText(it: Item): string {
    NatToString(it.id) + match it.quantity case None => "" case Some(q) => ":" + NatToString(q)
  }

  /** The items of a line, each preceded by one space. */
  function Render(items: seq<Item>): string {
    if items == [] then "" else " " + ItemText(items[0]) + Render(items[1..])
  }

  /**
   * Reads one item token. Without a ':' the whole token must be a product
   * id; with one, both the id before the first ':' and the quantity after it
   * must be non-negative integers. A quantity of 0 stands for no unit.
   */
  function ParseItem(tok: string): (r: Option<seq<nat>>)
    ensures var k := ColonAt(tok);
      r.Some? <==>
        if k == |tok| then tok != [] && AllDigits(tok)
        else tok[..k] != [] && AllDigits(tok[..k]) && tok[k + 1..] != [] && AllDigits(tok[k + 1..])
    ensures r.Some? ==> forall i :: 0 <= i < |r.value| ==> r.value[i] == DigitsValue(tok[..ColonAt(tok)])
  {
    var k := ColonAt(tok);
    assert tok[..|tok|] == tok;
    if k == |tok| then
      match ParseNat(tok)
      case None => None
      case Some(id) => Some([id])
    else
      match (ParseNat(tok[..k]), ParseNat(tok[k + 1..]))
      case (Some(id), Some(q)) => Some(Repeat(id, q))
      case _ => None
  }

  /** The units the item tokens stand for, or None when one of them is malformed. */
  function TokenUnits(tokens: seq<string>): Option<seq<nat>> {
    if tokens == [] then Some([])
    else
      match (ParseItem(tokens[0]), TokenUnits(tokens[1..]))
      case (Some(ids), Some(more)) => Some(ids + more)
      case _ => None
  }

  /** The result of the items after one item that stood for `ids`. */
  function Prepend(ids: seq<nat>, r: Result<seq<nat>, QuickBuyError>): Result<seq<nat>, QuickBuyError> {
    match r
    case Ok(more) => Ok(ids + more)
    case Err(e) => Err(e)
  }

  /**
   * Reads the items in `rest`; `done` is the part of the line consumed
   * before it. The first malformed item stops the parse: the error holds
   * everything before that item and everything from it on.
   */
  function ParseItems(done: string, rest: string): (r: Result<seq<nat>, QuickBuyError>)
    ensures r.Err? ==> r.error.parsedPart + r.error.failedPart == done + rest
    ensures r.Err? ==> |done| <= |r.error.parsedPart| && r.error.failedPart != []
    ensures r.Err? ==> !IsSpace(r.error.failedPart[0])
    ensures r.Ok? ==> TokenUnits(Tokens(rest)) == Some(r.value)
    ensures r.Err? ==> TokenUnits(Tokens(rest)).None?
    decreases |rest|
  {
    var k := SpanSpaces(rest);
    TokensSkipSpaces(rest);
    if k == |rest| then
      assert rest[k..] == [];
      Ok([])
    else
      assert rest[k..][0] == rest[k];
      var n := SpanToken(rest[k..]);
      var tok := rest[k..k + n];
      assert Tokens(rest) == [tok] + Tokens(rest[k + n..]) by {
        assert rest[k..][..n] == tok && rest[k..][n..] == rest[k + n..];
      }
      assert ([tok] + Tokens(rest[k + n..]))[1..] == Tokens(rest[k + n..]);
      match ParseItem(tok)
      case None =>
        assert done + rest[..k] + rest[k..] == done + rest;
        Err(QuickBuyError(done + rest[..k], rest[k..]))
      case Some(ids) =>
        assert done + rest[..k + n] + rest[k + n..] == done + rest;
        Prepend(ids, ParseItems(done + rest[..k + n], rest[k + n..]))
  }

  /**
   * `parser.parse`: the username is the first token of the line, the rest
   * are items.
   */
  function Parse(line: string): (r: Result<Request, QuickBuyError>)
    ensures r.Ok? ==> r.value.username != [] && NoSpace(r.value.username)
    ensures r.Ok? ==> |r.value.username| <= |line| && line[..|r.value.username|] == r.value.username
    ensures r.Ok? ==> |r.value.username| == |line| || IsSpace(line[|r.value.username|])
    ensures r.Err? ==> r.error.parsedPart + r.error.failedPart == line
    ensures r.Ok? <==> line != [] && !IsSpace(line[0]) && TokenUnits(Tokens(line)[1..]).Some?
    ensures r.Ok? ==>
      && Tokens(line)[0] == r.value.username
      && TokenUnits(Tokens(line)[1..]) == Some(r.value.productIds)
  {
    var n := SpanToken(line);
    assert line != [] && !IsSpace(line[0]) ==> Tokens(line)[1..] == Tokens(line[n..]);
    if n == 0 then Err(QuickBuyError("", line))
    else
      match ParseItems(line[..n], line[n..])
      case Ok(ids) => Ok(Request(line[..n], ids))
      case Err(e) =>
        assert line[..n] + line[n..] == line;
        Err(e)
  }

  /** A line that starts with a non-blank character fails, if at all, at a non-blank character. */
  lemma ParseFailsAtNonBlank(line: string)
    requires line != [] && !IsSpace(line[0]) && Parse(line).Err?
    ensures Parse(line).error.failedPart != [] && !IsSpace(Parse(line).error.failedPart[0])
  {
    var n := SpanToken(line);
    assert n != 0;
  }

  lemma ItemTextParts(it: Item)
    ensures ItemText(it) != [] && NoSpace(ItemText(it))
  {
    var a := NatToString(it.id);
    DigitsHaveNoSpaceOrColon(a);
    if it.quantity.Some? {
      DigitsHaveNoSpaceOrColon(NatToString(it.quantity.value));
    }
  }

  lemma ParseItemText(it: Item)
    ensures ParseItem(ItemText(it)) == Some(Units(it))
  {
    match it.quantity
    case None => ParsePlainItem(it.id);
    case Some(q) => ParseCountedItem(it.id, q);
  }

  /** An item written `id` stands for one unit. */
  lemma ParsePlainItem(id: nat)
    ensures ParseItem(ItemText(Item(id, None))) == Some(Units(Item(id, None)))
  {
    var a := NatToString(id);
    DigitsHaveNoSpaceOrColon(a);
    NatToStringRoundTrip(id);
    assert ItemText(Item(id, None)) == a + "" == a;
    ColonAtConcat(a, "");
    assert [id] == Repeat(id, 1);
  }

  /** An item written `id:q` stands for q units. */
  lemma ParseCountedItem(id: nat, q: nat)
    ensures ParseItem(ItemText(Item(id, Some(q)))) == Some(Units(Item(id, Some(q))))
  {
    var a, b := NatToString(id), NatToString(q);
    NatToStringRoundTrip(id);
    NatToStringRoundTrip(q);
    assert ItemText(Item(id, Some(q))) == a + (":" + b);
    ParseColonItem(a, b);
  }

  /** A token with digits before its first ':' is read as an id and a quantity. */
  lemma ParseColonItem(a: string, b: string)
    requires AllDigits(a)
    ensures ParseNat(a).Some? && ParseNat(b).Some? ==>
              ParseItem(a + (":" + b)) == Some(Repeat(ParseNat(a).value, ParseNat(b).value))
  {
    if ParseNat(a).Some? && ParseNat(b).Some? {
      var tok := a + (":" + b);
      DigitsHaveNoSpaceOrColon(a);
      ColonAtConcat(a, ":" + b);
      assert ColonAt(tok) == |a| < |tok|;
      assert tok[..|a|] == a;
      assert tok[|a| + 1..] == b;
      assert ParseNat(tok[..ColonAt(tok)]) == ParseNat(a);
      assert ParseNat(tok[ColonAt(tok) + 1..]) == ParseNat(b);
    }
  }

  /** One step of `ParseItems`: a single space, then the token `tok`. */
  lemma StepOk(done: string, tok: string, tail: string, ids: seq<nat>)
    requires tok != [] && NoSpace(tok) && ParseItem(tok) == Some(ids)
    requires tail == [] || IsSpace(tail[0])
    ensures ParseItems(done, " " + tok + tail) == Prepend(ids, ParseItems(done + " " + tok, tail))
  {
    StepSlices(done, tok, tail);
  }

  lemma StepErr(done: string, tok: string, tail: string)
    requires tok != [] && NoSpace(tok) && ParseItem(tok).None?
    requires tail == [] || IsSpace(tail[0])
    ensures ParseItems(done, " " + tok + tail) == Err(QuickBuyError(done + " ", tok + tail))
  {
    StepSlices(done, tok, tail);
  }

  /** Where the spans of `ParseItems` fall on a space, a token and the rest. */
  lemma StepSlices(done: string, tok: string, tail: string)
    requires tok != [] && NoSpace(tok)
    requires tail == [] || IsSpace(tail[0])
    ensures var rest := " " + tok + tail;
      && SpanSpaces(rest) == 1 && SpanToken(rest[1..]) == |tok|
      && rest[1..1 + |tok|] == tok && rest[1..] == tok + tail && rest[1 + |tok|..] == tail
      && done + rest[..1] == done + " " && done + rest[..1 + |tok|] == done + " " + tok
  {
    var rest := " " + tok + tail;
    assert rest[1..] == tok + tail;
    assert SpanSpaces(rest) == 1 by {
      assert rest[1..][0] == tok[0];
    }
    SpanTokenConcat(tok, tail);
    assert rest[..1 + |tok|] == " " + tok;
  }

  /** A line written in canonical form parses back to the units it stands for. */
  lemma {:induction false} ParseItemsRender(done: string, items: seq<Item>)
    ensures ParseItems(done, Render(items)) == Ok(AllUnits(items))
    decreases |items|
  {
    if items != [] {
      var text := ItemText(items[0]);
      var tail := Render(items[1..]);
      assert Render(items) == " " + text + tail;
      ItemTextParts(items[0]);
      assert tail == [] || IsSpace(tail[0]);
      ParseItemText(items[0]);
      StepOk(done, text, tail, Units(items[0]));
      ParseItemsRender(done + " " + text, items[1..]);
    }
  }

  /** A line is its first token, the username, followed by the items. */
  lemma ParseAfterUsername(username: string, tail: string)
    requires username != [] && NoSpace(username)
    requires tail == [] || IsSpace(tail[0])
    ensures ParseItems(username, tail).Ok? ==>
              Parse(username + tail) == Ok(Request(username, ParseItems(username, tail).value))
    ensures ParseItems(username, tail).Err? ==>
              Parse(username + tail) == Err(ParseItems(username, tail).error)
  {
    var line := username + tail;
    SpanTokenConcat(username, tail);
    assert line[..|username|] == username && line[|username|..] == tail;
  }

  lemma ParseRender(username: string, items: seq<Item>)
    requires username != [] && NoSpace(username)
    ensures Parse(username + Render(items)) == Ok(Request(username, AllUnits(items)))
  {
    var tail := Render(items);
    assert tail == [] || IsSpace(tail[0]);
    ParseAfterUsername(username, tail);
    ParseItemsRender(username, items);
  }

  /** A line holding only a username parses to that username and no products. */
  lemma ParseUsernameAlone(username: string)
    requires username != [] && NoSpace(username)
    ensures Parse(username) == Ok(Request(username, []))
  {
    ParseAfterUsername(username, []);
    assert username + [] == username;
  }

  /**
   * A malformed item after well-formed ones fails the parse, and the error
   * splits the line exactly where that item begins.
   */
  lemma {:induction false} ParseItemsFailsAt(done: string, items: seq<Item>, bad: string, after: string)
    requires bad != [] && NoSpace(bad) && ParseItem(bad).None?
    requires after == [] || IsSpace(after[0])
    ensures ParseItems(done, Render(items) + (" " + bad + after))
         == Err(QuickBuyError(done + Render(items) + " ", bad + after))
    decreases |items|
  {
    var suffix := " " + bad + after;
    if items == [] {
      FailsAtFirst(done, items, bad, after);
    } else {
      var text := ItemText(items[0]);
      var tail := Render(items[1..]) + suffix;
      ParseItemsFailsAt(done + " " + text, items[1..], bad, after);
      var e := QuickBuyError(done + " " + text + Render(items[1..]) + " ", bad + after);
      ParseItemsCons(done, items, suffix, Err(e));
      RenderAfter(done, items);
    }
  }

  /** Parsing a non-empty rendered list followed by `suffix` parses its first item, then the rest. */
  lemma ParseItemsCons(done: string, items: seq<Item>, suffix: string, r: Result<seq<nat>, QuickBuyError>)
    requires items != [] && suffix != [] && IsSpace(suffix[0])
    requires ParseItems(done + " " + ItemText(items[0]), Render(items[1..]) + suffix) == r
    ensures ParseItems(done, Render(items) + suffix) == Prepend(Units(items[0]), r)
  {
    var text := ItemText(items[0]);
    var tail := Render(items[1..]) + suffix;
    RenderCons(items, suffix);
    ItemTextParts(items[0]);
    ParseItemText(items[0]);
    StepOk(done, text, tail, Units(items[0]));
  }

  lemma RenderAfter(done: string, items: seq<Item>)
    requires items != []
    ensures done + " " + ItemText(items[0]) + Render(items[1..]) + " " == done + Render(items) + " "
  {
    assert done + " " + ItemText(items[0]) + Render(items[1..]) == done + Render(items);
  }

  lemma FailsAtFirst(done: string, items: seq<Item>, bad: string, after: string)
    requires items == []
    requires bad != [] && NoSpace(bad) && ParseItem(bad).None?
    requires after == [] || IsSpace(after[0])
    ensures ParseItems(done, Render(items) + (" " + bad + after))
         == Err(QuickBuyError(done + Render(items) + " ", bad + after))
  {
    assert Render(items) + (" " + bad + after) == " " + bad + after;
    StepErr(done, bad, after);
    assert done + Render(items) == done;
  }

  /** `Render` of a non-empty list followed by text that starts with whitespace. */
  lemma RenderCons(items: seq<Item>, after: string)
    requires items != [] && after != [] && IsSpace(after[0])
    ensures var tail := Render(items[1..]) + after;
      && Render(items) + after == " " + ItemText(items[0]) + tail
      && IsSpace(tail[0])
  {
    var tail := Render(items[1..]) + after;
    if items[1..] == [] {
      assert tail[0] == after[0];
    } else {
      assert tail[0] == Render(items[1..])[0];
    }
  }

  lemma ParseFailsAt(username: string, items: seq<Item>, bad: string, after: string)
    requires username != [] && NoSpace(username)
    requires bad != [] && NoSpace(bad) && ParseItem(bad).None?
    requires after == [] || IsSpace(after[0])
    ensures Parse(username + Render(items) + " " + bad + after)
         == Err(QuickBuyError(username + Render(items) + " ", bad + after))
  {
    var tail := Render(items) + (" " + bad + after);
    assert tail != [] && IsSpace(tail[0]) by {
      if items == [] {
        assert tail[0] == ' ';
      } else {
        assert tail[0] == Render(items)[0];
      }
    }
    ParseAfterUsername(username, tail);
    ParseItemsFailsAt(username, items, bad, after);
    LineParts(username, Render(items), bad, after);
  }

  lemma LineParts(username: string, items: string, bad: string, after: string)
    ensures username + items + " " + bad + after == username + (items + (" " + bad + after))
  {
  }
}
