/**
 The Redux cart slice (`cartData`): two lists of cart records keyed by id — `items`, the
 cart of the product page, and `itemsCart`, its mirror on the cart page — and the current
 shop and user ids. The reducers are modelled as the methods of class `Cart`; each method's
 postcondition gives the new lists as a function of the old ones, and the lemmas below state
 what those functions guarantee.
 */
module CartSlice {
  import opened Wrappers

  /** A cart record: id, quantity and unit price (in minor units). `info` stands for the other
      fields of the product row (name, image, size), which the reducers carry along untouched. */
  datatype Item = Item(id: int, quantity: int, price: int, info: string)

  /** No two records share an id. */
  predicate UniqueIds(s: seq<Item>) {
    forall i, j :: 0 <= i < j < |s| ==> s[i].id != s[j].id
  }

  /** Every record has a positive quantity. */
  predicate AllPositive(s: seq<Item>) {
    forall i :: 0 <= i < |s| ==> s[i].quantity > 0
  }

  /** Some record has the given id. */
  predicate HasId(s: seq<Item>, id: int) {
    exists i :: 0 <= i < |s| && s[i].id == id
  }

  /** The index of the first record with the given id, as `Array.prototype.find` picks it. */
  function Find(s: seq<Item>, id: int): (r: Option<nat>)
    ensures r.Some? ==> r.value < |s| && s[r.value].id == id
  {
    if |s| == 0 then None
    else if s[0].id == id then Some(0)
    else match Find(s[1..], id)
      case None => None
      case Some(k) => Some(k + 1)
  }

  /** `Find` misses exactly when no record has the id. */
  lemma {:induction false} FindNone(s: seq<Item>, id: int)
    ensures Find(s, id).None? <==> !HasId(s, id)
  {
    if |s| > 0 && s[0].id != id {
      FindNone(s[1..], id);
      if HasId(s, id) {
        var i :| 0 <= i < |s| && s[i].id == id;
        assert s[1..][i - 1].id == id;
      }
    }
  }

  /** No record before the one `Find` returns has the id. */
  lemma {:induction false} FindIsFirst(s: seq<Item>, id: int)
    requires Find(s, id).Some?
    ensures forall j :: 0 <= j < Find(s, id).value ==> s[j].id != id
  {
    if s[0].id != id {
      FindIsFirst(s[1..], id);
      forall j | 0 <= j < Find(s, id).value ensures s[j].id != id {
        if j > 0 { assert s[j] == s[1..][j - 1]; }
      }
    }
  }

  /** The first record with the id is the one `Find` returns. */
  lemma {:induction false} FindFirst(s: seq<Item>, id: int, k: nat)
    requires k < |s| && s[k].id == id
    requires forall j :: 0 <= j < k ==> s[j].id != id
    ensures Find(s, id) == Some(k)
  {
    if k > 0 {
      FindFirst(s[1..], id, k - 1);
    }
  }

  /** Changing one record's quantity does not change what `Find` returns, for any id. */
  lemma FindIgnoresQuantity(s: seq<Item>, k: nat, q: int, id: int)
    requires k < |s|
    ensures Find(s[k := s[k].(quantity := q)], id) == Find(s, id)
  {
    var t := s[k := s[k].(quantity := q)];
    match Find(s, id)
    case None =>
      FindNone(s, id);
      assert !HasId(t, id) by {
        forall j | 0 <= j < |t| ensures t[j].id != id { assert t[j].id == s[j].id; }
      }
      FindNone(t, id);
    case Some(m) =>
      FindIsFirst(s, id);
      FindFirst(t, id, m);
  }

  /** `filter((item) => item.id !== id)`: the records whose id differs, in their order. */
  function Without(s: seq<Item>, id: int): (r: seq<Item>)
    ensures |r| <= |s|
    ensures !HasId(r, id)
    ensures forall x :: x in r <==> x in s && x.id != id
  {
    if |s| == 0 then []
    else if s[0].id == id then Without(s[1..], id)
    else [s[0]] + Without(s[1..], id)
  }

  /** The sum of the quantities of the records with the given id. */
  function QuantityFor(s: seq<Item>, id: int): int {
    if |s| == 0 then 0
    else QuantityFor(s[..|s| - 1], id) + (if s[|s| - 1].id == id then s[|s| - 1].quantity else 0)
  }

  /** `addToCart` / `addToCartOnCart` on one list: add the payload's quantity to the first
      record with its id, or append the payload when there is none. */
  function Added(s: seq<Item>, p: Item): seq<Item> {
    match Find(s, p.id)
    case None => s + [p]
    case Some(k) => s[k := s[k].(quantity := s[k].quantity + p.quantity)]
  }

  /** `updateQuantity` on `items`: set the first matching record's quantity; when the new
      quantity is not positive, drop every record with that id; no-op when the id is absent. */
  function QuantitySet(s: seq<Item>, id: int, q: int): seq<Item> {
    match Find(s, id)
    case None => s
    case Some(k) => if q <= 0 then Without(s, id) else s[k := s[k].(quantity := q)]
  }

  /** `updateQuantityOnCart` as written: the lookup is in `itemsCart`, but the removal branch
      filters `items`, so the new `itemsCart` is `items` minus the id. */
  function QuantitySetOnCart(cart: seq<Item>, items: seq<Item>, id: int, q: int): seq<Item> {
    match Find(cart, id)
    case None => cart
    case Some(k) => if q <= 0 then Without(items, id) else cart[k := cart[k].(quantity := q)]
  }

  /** The evidently intended `updateQuantityOnCart`: the removal branch filters `itemsCart`. */
  function QuantitySetOnCartIntended(cart: seq<Item>, id: int, q: int): seq<Item> {
    QuantitySet(cart, id, q)
  }

  // ---------------------------------------------------------------------------------------
  // addToCart

  /** An id not present: the payload is appended and everything before it is unchanged.
      An id present: the length stays, only the first match gains the payload's quantity. */
  lemma AddedShape(s: seq<Item>, p: Item)
    ensures !HasId(s, p.id) ==> Added(s, p) == s + [p]
    ensures HasId(s, p.id) ==>
      && Find(s, p.id).Some?
      && var k := Find(s, p.id).value;
         && |Added(s, p)| == |s|
         && Added(s, p)[k] == s[k].(quantity := s[k].quantity + p.quantity)
         && forall j :: 0 <= j < |s| && j != k ==> Added(s, p)[j] == s[j]
  {
    FindNone(s, p.id);
  }

  /** Adding keeps ids unique. */
  lemma AddedKeepsUnique(s: seq<Item>, p: Item)
    requires UniqueIds(s)
    ensures UniqueIds(Added(s, p))
  {
    match Find(s, p.id)
    case None =>
      FindNone(s, p.id);
      var r := s + [p];
      forall i, j | 0 <= i < j < |r| ensures r[i].id != r[j].id {
        if j == |s| { assert r[i] == s[i]; }
      }
    case Some(k) =>
  }

  /** Adding a positive quantity keeps every quantity positive. */
  lemma AddedKeepsPositive(s: seq<Item>, p: Item)
    requires AllPositive(s) && p.quantity > 0
    ensures AllPositive(Added(s, p))
  {
  }

  // ---------------------------------------------------------------------------------------
  // removeFromCart

  /** Filtering distributes over concatenation: the kept records stay in relative order. */
  lemma {:induction false} WithoutConcat(a: seq<Item>, b: seq<Item>, id: int)
    ensures Without(a + b, id) == Without(a, id) + Without(b, id)
  {
    if |a| == 0 {
      assert a + b == b;
    } else {
      assert (a + b)[1..] == a[1..] + b;
      WithoutConcat(a[1..], b, id);
    }
  }

  /** Filtering a list ends with filtering its last record. */
  lemma WithoutSnoc(s: seq<Item>, id: int)
    requires |s| > 0
    ensures Without(s, id) == Without(s[..|s| - 1], id) + (if s[|s| - 1].id == id then [] else [s[|s| - 1]])
  {
    var init, last := s[..|s| - 1], s[|s| - 1];
    assert s == init + [last];
    WithoutConcat(init, [last], id);
    assert [last][1..] == [];
  }

  /** Removing an absent id changes nothing. */
  lemma {:induction false} WithoutAbsent(s: seq<Item>, id: int)
    requires !HasId(s, id)
    ensures Without(s, id) == s
  {
    if |s| > 0 {
      assert s[0].id != id;
      assert !HasId(s[1..], id) by {
        forall i | 0 <= i < |s[1..]| ensures s[1..][i].id != id { assert s[1..][i] == s[i + 1]; }
      }
      WithoutAbsent(s[1..], id);
      assert s == [s[0]] + s[1..];
    }
  }

  /** Removing is idempotent. */
  lemma WithoutIdempotent(s: seq<Item>, id: int)
    ensures Without(Without(s, id), id) == Without(s, id)
  {
    WithoutAbsent(Without(s, id), id);
  }

  /** Removing keeps ids unique. */
  lemma {:induction false} WithoutKeepsUnique(s: seq<Item>, id: int)
    requires UniqueIds(s)
    ensures UniqueIds(Without(s, id))
  {
    if |s| > 0 {
      UniqueTail(s);
      WithoutKeepsUnique(s[1..], id);
      if s[0].id != id {
        UniqueCons(s[0], Without(s[1..], id));
      }
    }
  }

  /** The tail of a list with unique ids has unique ids, none of them the head's. */
  lemma UniqueTail(s: seq<Item>)
    requires |s| > 0 && UniqueIds(s)
    ensures UniqueIds(s[1..])
    ensures forall x :: x in s[1..] ==> x.id != s[0].id
  {
    var t := s[1..];
    forall i, j | 0 <= i < j < |t| ensures t[i].id != t[j].id {
      assert t[i] == s[i + 1] && t[j] == s[j + 1];
    }
    forall x | x in t ensures x.id != s[0].id {
      var m :| 0 <= m < |t| && t[m] == x;
      assert s[m + 1] == x;
    }
  }

  /** A record whose id no record of a unique list has can be put in front of it. */
  lemma UniqueCons(x: Item, t: seq<Item>)
    requires UniqueIds(t)
    requires forall y :: y in t ==> y.id != x.id
    ensures UniqueIds([x] + t)
  {
    var r := [x] + t;
    forall i, j | 0 <= i < j < |r| ensures r[i].id != r[j].id {
      assert r[j] == t[j - 1];
      if i == 0 {
        assert t[j - 1] in t;
      } else {
        assert r[i] == t[i - 1];
      }
    }
  }

  /** Filtering keeps every quantity positive. */
  lemma WithoutKeepsPositive(s: seq<Item>, id: int)
    requires AllPositive(s)
    ensures AllPositive(Without(s, id))
  {
    var r := Without(s, id);
    forall i | 0 <= i < |r| ensures r[i].quantity > 0 {
      assert r[i] in r;
      var m :| 0 <= m < |s| && s[m] == r[i];
    }
  }

  // ---------------------------------------------------------------------------------------
  // updateQuantity

  /** `updateQuantity` never inserts; on an absent id it is a no-op. With a positive quantity
      it sets exactly that quantity, in place; with a non-positive one the id is gone. */
  lemma QuantitySetShape(s: seq<Item>, id: int, q: int)
    ensures !HasId(s, id) ==> QuantitySet(s, id, q) == s
    ensures HasId(s, id) && q > 0 ==>
      && Find(s, id).Some?
      && var k := Find(s, id).value;
         && |QuantitySet(s, id, q)| == |s|
         && QuantitySet(s, id, q)[k] == s[k].(quantity := q)
         && forall j :: 0 <= j < |s| && j != k ==> QuantitySet(s, id, q)[j] == s[j]
    ensures q <= 0 ==> !HasId(QuantitySet(s, id, q), id)
  {
    FindNone(s, id);
  }

  /** With unique ids, no record with the updated id is left with a non-positive quantity, and
      a record with that id carries exactly the requested quantity. */
  lemma QuantitySetNoNonPositive(s: seq<Item>, id: int, q: int)
    requires UniqueIds(s)
    ensures forall x :: x in QuantitySet(s, id, q) && x.id == id ==> x.quantity == q && q > 0
  {
    FindNone(s, id);
    match Find(s, id)
    case None =>
    case Some(k) =>
      if q > 0 {
        var r := QuantitySet(s, id, q);
        forall x | x in r && x.id == id ensures x.quantity == q {
          var m :| 0 <= m < |r| && r[m] == x;
          assert m == k;
        }
      }
  }

  /** Updating keeps ids unique and, from positive quantities, keeps them positive. */
  lemma QuantitySetKeepsInvariants(s: seq<Item>, id: int, q: int)
    requires UniqueIds(s)
    ensures UniqueIds(QuantitySet(s, id, q))
    ensures AllPositive(s) ==> AllPositive(QuantitySet(s, id, q))
  {
    FindNone(s, id);
    if HasId(s, id) && q <= 0 {
      WithoutKeepsUnique(s, id);
      if AllPositive(s) { WithoutKeepsPositive(s, id); }
    }
  }

  // ---------------------------------------------------------------------------------------
  // updateQuantityOnCart

  /** As written: a non-positive quantity for an id found in `itemsCart` replaces `itemsCart`
      with `items` minus the id; a positive one only sets the found record's quantity. */
  lemma QuantitySetOnCartShape(cart: seq<Item>, items: seq<Item>, id: int, q: int)
    ensures !HasId(cart, id) ==> QuantitySetOnCart(cart, items, id, q) == cart
    ensures HasId(cart, id) && q <= 0 ==> QuantitySetOnCart(cart, items, id, q) == Without(items, id)
    ensures HasId(cart, id) && q > 0 ==>
      QuantitySetOnCart(cart, items, id, q) == QuantitySetOnCartIntended(cart, id, q)
  {
    FindNone(cart, id);
  }

  /** The as-written removal copies product-page records into the cart-page list: with one
      record on each side, removing the cart-page record leaves the product-page one. */
  lemma QuantitySetOnCartCopiesItems()
    ensures var a := Item(1, 2, 100, "tea");
            var b := Item(2, 1, 50, "milk");
            QuantitySetOnCart([a], [b], 1, 0) == [b]
              && QuantitySetOnCartIntended([a], 1, 0) == []
  {
    var a := Item(1, 2, 100, "tea");
    var b := Item(2, 1, 50, "milk");
    assert Find([a], 1) == Some(0);
    assert Without([b], 1) == [b] by { WithoutAbsent([b], 1); }
  }

  /** The intended update removes exactly the id from `itemsCart` and never reads `items`. */
  lemma QuantitySetOnCartIntendedRemoves(cart: seq<Item>, id: int, q: int)
    requires HasId(cart, id) && q <= 0
    ensures QuantitySetOnCartIntended(cart, id, q) == Without(cart, id)
  {
    FindNone(cart, id);
  }

  // ---------------------------------------------------------------------------------------
  // The slice state

  /** The `cartData` slice: the reducers update the fields in place (an Immer draft). */
  class Cart {
    var items: seq<Item>
    var itemsCart: seq<Item>
    var shopId: Option<int>
    var userId: Option<int>

    /** `initialState`: two empty lists and two nulls. */
    constructor ()
      ensures items == [] && itemsCart == [] && shopId == None && userId == None
    {
      items, itemsCart, shopId, userId := [], [], None, None;
    }

    method AddToCart(p: Item)
      modifies this
      ensures items == Added(old(items), p)
      ensures itemsCart == old(itemsCart) && shopId == old(shopId) && userId == old(userId)
    {
      match Find(items, p.id)
      case Some(k) => items := items[k := items[k].(quantity := items[k].quantity + p.quantity)];
      case None => items := items + [p];
    }

    method RemoveFromCart(id: int)
      modifies this
      ensures items == Without(old(items), id)
      ensures itemsCart == old(itemsCart) && shopId == old(shopId) && userId == old(userId)
    {
      items := Without(items, id);
    }

    method SetShopId(id: int)
      modifies this
      ensures shopId == Some(id)
      ensures items == old(items) && itemsCart == old(itemsCart) && userId == old(userId)
    {
      shopId := Some(id);
    }

    method SetUserId(id: int)
      modifies this
      ensures userId == Some(id)
      ensures items == old(items) && itemsCart == old(itemsCart) && shopId == old(shopId)
    {
      userId := Some(id);
    }

    method UpdateQuantity(id: int, q: int)
      modifies this
      ensures items == QuantitySet(old(items), id, q)
      ensures itemsCart == old(itemsCart) && shopId == old(shopId) && userId == old(userId)
    {
      match Find(items, id)
      case None =>
      case Some(k) =>
        items := items[k := items[k].(quantity := q)];
        if q <= 0 {
          assert Without(items, id) == Without(old(items), id) by {
            WithoutSameExceptAt(old(items), k, q, id);
          }
          items := Without(items, id);
        }
    }

    method AddToCartOnCart(p: Item)
      modifies this
      ensures itemsCart == Added(old(itemsCart), p)
      ensures items == old(items) && shopId == old(shopId) && userId == old(userId)
    {
      match Find(itemsCart, p.id)
      case Some(k) =>
        itemsCart := itemsCart[k := itemsCart[k].(quantity := itemsCart[k].quantity + p.quantity)];
      case None => itemsCart := itemsCart + [p];
    }

    method RemoveFromCartOnCart(id: int)
      modifies this
      ensures itemsCart == Without(old(itemsCart), id)
      ensures items == old(items) && shopId == old(shopId) && userId == old(userId)
    {
      itemsCart := Without(itemsCart, id);
    }

    method UpdateQuantityOnCart(id: int, q: int)
      modifies this
      ensures itemsCart == QuantitySetOnCart(old(itemsCart), old(items), id, q)
      ensures items == old(items) && shopId == old(shopId) && userId == old(userId)
    {
      match Find(itemsCart, id)
      case None =>
      case Some(k) =>
        itemsCart := itemsCart[k := itemsCart[k].(quantity := q)];
        if q <= 0 {
          itemsCart := Without(items, id);
        }
    }

    method ClearItemsCart()
      modifies this
      ensures items == []
      ensures itemsCart == old(itemsCart) && shopId == old(shopId) && userId == old(userId)
    {
      items := [];
    }

    method ClearItemsOnCart()
      modifies this
      ensures itemsCart == []
      ensures items == old(items) && shopId == old(shopId) && userId == old(userId)
    {
      itemsCart := [];
    }
  }

  /** Changing the quantity of the record at `k` (whose id is `id`) does not change what the
      filter on `id` keeps. */
  lemma {:induction false} WithoutSameExceptAt(s: seq<Item>, k: nat, q: int, id: int)
    requires k < |s| && s[k].id == id
    ensures Without(s[k := s[k].(quantity := q)], id) == Without(s, id)
  {
    var t := s[k := s[k].(quantity := q)];
    if k > 0 {
      assert t[1..] == s[1..][k - 1 := s[k].(quantity := q)];
      assert s[1..][k - 1] == s[k];
      WithoutSameExceptAt(s[1..], k - 1, q, id);
    } else {
      assert t[1..] == s[1..];
    }
  }
}
