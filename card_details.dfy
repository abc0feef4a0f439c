/**
 The product page of a shop (`Components/CardDetailsScreen/index.jsx`): the cart totals in
 the footer, the category parameter of the product query, and the Add, − and + controls of a
 product, which dispatch to the `items` list of the cart slice. Fetches and rendering are
 outside the model.
 */
module CardDetails {
  import opened Wrappers
  import opened CartSlice
  import opened Forms
  import opened Numerals

  // ---------------------------------------------------------------------------------------
  // Totals

  /** `cartItems.reduce((total, item) => total + item.quantity, 0)`. */
  function TotalItems(s: seq<Item>): (r: int)
    ensures s == [] ==> r == 0
    ensures AllPositive(s) ==> r >= |s|
  {
    if |s| == 0 then 0 else TotalItems(s[..|s| - 1]) + s[|s| - 1].quantity
  }

  /** What one record adds to the price total. */
  function LineTotal(x: Item): int {
    x.price * x.quantity
  }

  /** `cartItems.reduce((total, item) => total + item.price * item.quantity, 0)`. */
  function TotalPrice(s: seq<Item>): int {
    if |s| == 0 then 0 else TotalPrice(s[..|s| - 1]) + LineTotal(s[|s| - 1])
  }

  /** Both totals add up over concatenation. */
  lemma {:induction false} TotalsConcat(a: seq<Item>, b: seq<Item>)
    ensures TotalItems(a + b) == TotalItems(a) + TotalItems(b)
    ensures TotalPrice(a + b) == TotalPrice(a) + TotalPrice(b)
  {
    if |b| > 0 {
      assert (a + b)[..|a + b| - 1] == a + b[..|b| - 1];
      assert (a + b)[|a + b| - 1] == b[|b| - 1];
      TotalsConcat(a, b[..|b| - 1]);
    } else {
      assert a + b == a;
    }
  }

  /** Setting one record's quantity changes the totals by the difference. */
  lemma TotalsAfterSetAt(s: seq<Item>, k: nat, q: int)
    requires k < |s|
    ensures TotalItems(s[k := s[k].(quantity := q)]) == TotalItems(s) - s[k].quantity + q
    ensures TotalPrice(s[k := s[k].(quantity := q)]) == TotalPrice(s) - s[k].price * s[k].quantity + s[k].price * q
  {
    var t := s[k := s[k].(quantity := q)];
    assert s == s[..k] + [s[k]] + s[k + 1..];
    assert t == s[..k] + [t[k]] + s[k + 1..];
    TotalsConcat(s[..k] + [s[k]], s[k + 1..]);
    TotalsConcat(s[..k], [s[k]]);
    TotalsConcat(s[..k] + [t[k]], s[k + 1..]);
    TotalsConcat(s[..k], [t[k]]);
    assert [s[k]][..0] == [] && [t[k]][..0] == [];
  }

  /** Adding a payload raises the item total by its quantity, and the price total by that
      quantity at the price of the record it lands in. */
  lemma TotalsAfterAdded(s: seq<Item>, p: Item)
    ensures TotalItems(Added(s, p)) == TotalItems(s) + p.quantity
    ensures Find(s, p.id).None? ==> TotalPrice(Added(s, p)) == TotalPrice(s) + p.price * p.quantity
    ensures Find(s, p.id).Some? ==>
      TotalPrice(Added(s, p)) == TotalPrice(s) + s[Find(s, p.id).value].price * p.quantity
  {
    var t := Added(s, p);
    match Find(s, p.id)
    case None =>
      assert t == s + [p];
      TotalsAfterAppend(s, p);
    case Some(k) =>
      assert t == s[k := s[k].(quantity := s[k].quantity + p.quantity)];
      TotalsAfterMerge(s, k, p.quantity);
  }

  lemma TotalsAfterAppend(s: seq<Item>, p: Item)
    ensures TotalItems(s + [p]) == TotalItems(s) + p.quantity
    ensures TotalPrice(s + [p]) == TotalPrice(s) + p.price * p.quantity
  {
    var t := s + [p];
    assert t[..|t| - 1] == s && t[|t| - 1] == p;
  }

  lemma TotalsAfterMerge(s: seq<Item>, k: nat, extra: int)
    requires k < |s|
    ensures TotalItems(s[k := s[k].(quantity := s[k].quantity + extra)]) == TotalItems(s) + extra
    ensures TotalPrice(s[k := s[k].(quantity := s[k].quantity + extra)]) == TotalPrice(s) + s[k].price * extra
  {
    var q := s[k].quantity + extra;
    TotalsAfterSetAt(s, k, q);
    MulDistributes(s[k].price, s[k].quantity, extra);
  }

  lemma MulDistributes(a: int, b: int, c: int)
    ensures a * (b + c) == a * b + a * c
  {
  }

  /** Removing an id lowers the item total by the quantities recorded for it. */
  lemma {:induction false} TotalsAfterWithout(s: seq<Item>, id: int)
    ensures TotalItems(Without(s, id)) == TotalItems(s) - QuantityFor(s, id)
  {
    if |s| > 0 {
      var init, last := s[..|s| - 1], s[|s| - 1];
      TotalsAfterWithout(init, id);
      WithoutSnoc(s, id);
      var w := Without(init, id);
      if last.id != id {
        TotalItemsAppend(w, last);
      } else {
        assert w + [] == w;
      }
    }
  }

  lemma TotalItemsAppend(s: seq<Item>, x: Item)
    ensures TotalItems(s + [x]) == TotalItems(s) + x.quantity
  {
    var t := s + [x];
    assert t[..|t| - 1] == s;
  }

  // ---------------------------------------------------------------------------------------
  // The `product_category_id` parameter

  /** The parameter's value: the number 0, or a comma-separated text. */
  datatype CategoryParam = Zero | Joined(text: string)

  /** `String(id)` for an integer id. */
  function IdText(i: int): (s: string)
    ensures ',' !in s
  {
    if i < 0 then "-" + Decimal(-i) else Decimal(i)
  }

  /** `ids.join(",")`. */
  function JoinIds(ids: seq<int>): string {
    if |ids| == 0 then "" else if |ids| == 1 then IdText(ids[0]) else IdText(ids[0]) + "," + JoinIds(ids[1..])
  }

  /** `selectedCategories.length > 0 ? selectedCategories.join(",") : 0`. */
  function ProductCategoryParam(selected: seq<int>): CategoryParam {
    if |selected| > 0 then Joined(JoinIds(selected)) else Zero
  }

  /** Reading back one id. */
  function ParseId(s: string): Option<int> {
    if |s| > 0 && s[0] == '-' then
      if |s| > 1 && AllDigits(s[1..]) then Some(0 - DigitsValue(s[1..])) else None
    else if |s| > 0 && AllDigits(s) then Some(DigitsValue(s))
    else None
  }

  /** The index of the first comma. */
  function FirstComma(s: string): (r: Option<nat>)
    ensures r.Some? ==> r.value < |s| && s[r.value] == ',' && ',' !in s[..r.value]
    ensures r.None? ==> ',' !in s
  {
    if |s| == 0 then None
    else if s[0] == ',' then Some(0)
    else match FirstComma(s[1..])
      case None => None
      case Some(k) => assert s[..k + 1] == [s[0]] + s[1..][..k]; Some(k + 1)
  }

  /** Splitting at commas and reading each piece back as an id: the inverse of `JoinIds`. */
  function ParseIds(s: string): Option<seq<int>>
    decreases |s|
  {
    match FirstComma(s)
    case None =>
      (match ParseId(s) case None => None case Some(i) => Some([i]))
    case Some(k) =>
      match ParseId(s[..k])
      case None => None
      case Some(i) =>
        match ParseIds(s[k + 1..])
        case None => None
        case Some(rest) => Some([i] + rest)
  }

  lemma IdTextRoundTrip(i: int)
    ensures ParseId(IdText(i)) == Some(i)
  {
    ParseDecimal(if i < 0 then -i else i);
  }

  /** The digits of a number, with or without a minus sign, read back as it or its negation. */
  lemma ParseDecimal(n: nat)
    ensures ParseId(Decimal(n)) == Some(n)
    ensures ParseId("-" + Decimal(n)) == Some(0 - n)
  {
    DecimalValue(n);
    ParseDigits(Decimal(n));
    ParseNegative(Decimal(n));
  }

  /** A minus sign before digits reads as the negated value of the digits. */
  lemma ParseNegative(d: string)
    requires |d| > 0 && AllDigits(d)
    ensures ParseId("-" + d) == Some(0 - DigitsValue(d))
  {
    var s := "-" + d;
    assert s[1..] == d && s[0] == '-';
  }

  /** Digits alone read as their value. */
  lemma ParseDigits(d: string)
    requires |d| > 0 && AllDigits(d)
    ensures ParseId(d) == Some(DigitsValue(d))
  {
    assert d[0] != '-' by { assert IsDigit(d[0]); }
  }

  /** Text without a comma, then a comma: the comma found first is that one. */
  lemma {:induction false} FirstCommaAfter(a: string, b: string)
    requires ',' !in a
    ensures FirstComma(a + "," + b) == Some(|a|)
  {
    if |a| > 0 {
      assert (a + "," + b)[1..] == a[1..] + "," + b;
      FirstCommaAfter(a[1..], b);
    }
  }

  /** The joined ids read back as the selection: the parameter loses nothing. */
  lemma {:induction false} JoinIdsRoundTrip(ids: seq<int>)
    requires |ids| > 0
    ensures ParseIds(JoinIds(ids)) == Some(ids)
  {
    var a := IdText(ids[0]);
    IdTextRoundTrip(ids[0]);
    if |ids| == 1 {
      assert JoinIds(ids) == a;
      assert FirstComma(a).None?;
      assert ParseIds(a) == Some([ids[0]]);
      assert ids == [ids[0]];
    } else {
      var b := JoinIds(ids[1..]);
      var s := a + "," + b;
      assert JoinIds(ids) == s;
      FirstCommaAfter(a, b);
      assert s[..|a|] == a;
      assert s[|a| + 1..] == b;
      JoinIdsRoundTrip(ids[1..]);
      assert ParseIds(s) == Some([ids[0]] + ids[1..]);
      assert [ids[0]] + ids[1..] == ids;
    }
  }

  /** The parameter is 0 exactly when nothing is selected, and otherwise carries the
      selection in order. */
  lemma CategoryParamMeaning(selected: seq<int>)
    ensures ProductCategoryParam(selected) == Zero <==> selected == []
    ensures selected != [] ==> ParseIds(ProductCategoryParam(selected).text) == Some(selected)
  {
    if selected != [] { JoinIdsRoundTrip(selected); }
  }

  // ---------------------------------------------------------------------------------------
  // The controls of a product

  /** The quantity a product shows: its cart record's, or 1 when it is not in the cart. */
  function ShownQuantity(items: seq<Item>, id: int): (q: int)
    ensures !HasId(items, id) ==> q == 1
    ensures HasId(items, id) ==> Find(items, id).Some? && q == items[Find(items, id).value].quantity
  {
    FindNone(items, id);
    match Find(items, id)
    case None => 1
    case Some(k) => items[k].quantity
  }

  /** `handleAddToCart`: one more of a product in the cart, or the product with quantity 1. */
  function AddClick(items: seq<Item>, product: Item): seq<Item> {
    if HasId(items, product.id) then QuantitySet(items, product.id, ShownQuantity(items, product.id) + 1)
    else Added(items, product.(quantity := 1))
  }

  /** `handleUpdateQuantity`: set a positive quantity, or remove the product. */
  function AdjustClick(items: seq<Item>, id: int, newQ: int): seq<Item> {
    if newQ > 0 then QuantitySet(items, id, newQ) else Without(items, id)
  }

  /** The "+" button: `handleAddToCart()` then `handleUpdateQuantity(quantity + 1)`, both with
      the quantity shown when the page was rendered. */
  function PlusClick(items: seq<Item>, product: Item): seq<Item> {
    AdjustClick(AddClick(items, product), product.id, ShownQuantity(items, product.id) + 1)
  }

  /** The "−" button: `handleUpdateQuantity(quantity - 1)`. */
  function MinusClick(items: seq<Item>, product: Item): seq<Item> {
    AdjustClick(items, product.id, ShownQuantity(items, product.id) - 1)
  }

  /** `handleUpdateQuantity` is `updateQuantity` in every case: removing an absent product is
      as much a no-op as updating it. */
  lemma AdjustIsQuantitySet(items: seq<Item>, id: int, newQ: int)
    ensures AdjustClick(items, id, newQ) == QuantitySet(items, id, newQ)
  {
    FindNone(items, id);
    if newQ <= 0 && !HasId(items, id) { WithoutAbsent(items, id); }
  }

  /** Add on a product in the cart sets one more than shown; otherwise it appends the product
      with quantity 1. */
  lemma AddClickShape(items: seq<Item>, product: Item)
    ensures HasId(items, product.id) ==>
      && Find(items, product.id).Some?
      && AddClick(items, product) == QuantitySet(items, product.id, items[Find(items, product.id).value].quantity + 1)
    ensures !HasId(items, product.id) ==> AddClick(items, product) == items + [product.(quantity := 1)]
  {
    FindNone(items, product.id);
    if HasId(items, product.id) {
      var k := Find(items, product.id).value;
      assert ShownQuantity(items, product.id) == items[k].quantity;
    } else {
      assert Find(items, product.id).None?;
    }
  }

  /** "+" on a product shown at q leaves it at q + 1: both dispatches set the same value. */
  lemma PlusOnPresent(items: seq<Item>, product: Item)
    requires HasId(items, product.id) && ShownQuantity(items, product.id) > 0
    ensures Find(items, product.id).Some?
    ensures var k := Find(items, product.id).value;
            PlusClick(items, product) == items[k := items[k].(quantity := items[k].quantity + 1)]
  {
    FindNone(items, product.id);
    var k := Find(items, product.id).value;
    var q := items[k].quantity + 1;
    var once := items[k := items[k].(quantity := q)];
    FindIgnoresQuantity(items, k, q, product.id);
    assert once[k := once[k].(quantity := q)] == once;
  }

  /** "+" on a product that is not in the cart adds it with quantity 2: the default shown
      quantity is 1 and the second dispatch sets 1 + 1. */
  lemma PlusOnAbsent(items: seq<Item>, product: Item)
    requires !HasId(items, product.id)
    ensures PlusClick(items, product) == items + [product.(quantity := 2)]
  {
    var once := items + [product.(quantity := 1)];
    assert forall j :: 0 <= j < |items| ==> once[j] == items[j];
    FindFirst(once, product.id, |items|);
    assert once[|items| := once[|items|].(quantity := 2)] == items + [product.(quantity := 2)];
  }

  /** "−" on a product shown at 1 removes it; the page then shows the default 1 again. */
  lemma MinusAtOne(items: seq<Item>, product: Item)
    requires HasId(items, product.id) && ShownQuantity(items, product.id) == 1
    ensures !HasId(MinusClick(items, product), product.id)
    ensures ShownQuantity(MinusClick(items, product), product.id) == 1
  {
  }

  /** The product-page controls keep `items` free of duplicate ids and of non-positive
      quantities, and "+" raises the item total by exactly one for a listed product. */
  lemma ProductControlsKeepInvariants(items: seq<Item>, product: Item)
    requires UniqueIds(items) && AllPositive(items)
    ensures UniqueIds(AddClick(items, product)) && AllPositive(AddClick(items, product))
    ensures UniqueIds(PlusClick(items, product)) && AllPositive(PlusClick(items, product))
    ensures UniqueIds(MinusClick(items, product)) && AllPositive(MinusClick(items, product))
    ensures HasId(items, product.id) ==> TotalItems(PlusClick(items, product)) == TotalItems(items) + 1
  {
    var id := product.id;
    var added := AddClick(items, product);
    if HasId(items, id) {
      QuantitySetKeepsInvariants(items, id, ShownQuantity(items, id) + 1);
      PlusOnPresent(items, product);
      FindNone(items, id);
      var k := Find(items, id).value;
      TotalsAfterSetAt(items, k, items[k].quantity + 1);
    } else {
      AddedKeepsUnique(items, product.(quantity := 1));
    }
    AdjustIsQuantitySet(added, id, ShownQuantity(items, id) + 1);
    QuantitySetKeepsInvariants(added, id, ShownQuantity(items, id) + 1);
    AdjustIsQuantitySet(items, id, ShownQuantity(items, id) - 1);
    QuantitySetKeepsInvariants(items, id, ShownQuantity(items, id) - 1);
  }

  // ---------------------------------------------------------------------------------------
  // The handlers, over the slice state

  method HandleAddToCart(cart: Cart, product: Item)
    modifies cart
    ensures cart.items == AddClick(old(cart.items), product)
    ensures cart.itemsCart == old(cart.itemsCart) && cart.shopId == old(cart.shopId) && cart.userId == old(cart.userId)
  {
    if HasId(cart.items, product.id) {
      cart.UpdateQuantity(product.id, ShownQuantity(cart.items, product.id) + 1);
    } else {
      cart.AddToCart(product.(quantity := 1));
    }
  }

  method HandleUpdateQuantity(cart: Cart, id: int, newQ: int)
    modifies cart
    ensures cart.items == AdjustClick(old(cart.items), id, newQ)
    ensures cart.itemsCart == old(cart.itemsCart) && cart.shopId == old(cart.shopId) && cart.userId == old(cart.userId)
  {
    if newQ > 0 {
      cart.UpdateQuantity(id, newQ);
    } else {
      cart.RemoveFromCart(id);
    }
  }

  method PressPlus(cart: Cart, product: Item)
    modifies cart
    ensures cart.items == PlusClick(old(cart.items), product)
    ensures cart.itemsCart == old(cart.itemsCart) && cart.shopId == old(cart.shopId) && cart.userId == old(cart.userId)
  {
    var shown := ShownQuantity(cart.items, product.id);
    HandleAddToCart(cart, product);
    HandleUpdateQuantity(cart, product.id, shown + 1);
  }

  method PressMinus(cart: Cart, product: Item)
    modifies cart
    ensures cart.items == MinusClick(old(cart.items), product)
    ensures cart.itemsCart == old(cart.itemsCart) && cart.shopId == old(cart.shopId) && cart.userId == old(cart.userId)
  {
    HandleUpdateQuantity(cart, product.id, ShownQuantity(cart.items, product.id) - 1);
  }
}
