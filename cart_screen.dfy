/**
 The cart page (`Components/CartScreen/index.jsx`): it reloads the server's cart rows into
 `itemsCart`, shows each row's quantity as the matching `itemsCart` record's, and changes a
 quantity optimistically before posting it. Server replies are inputs; the HTTP calls, the
 total-amount fetch and the rendering are outside the model.
 */
module CartScreen {
  import opened Wrappers
  import opened CartSlice

  /** A row of the cart-list reply; `quantity` is None where the server sends null. */
  datatype Row = Row(id: int, quantity: Option<int>, price: int, info: string)

  /** The cart-list reply: its rows (an absent `data` is the empty list), or a failure. */
  datatype ListReply = ListOk(rows: seq<Row>) | ListFailed

  /** The reply to the quantity post. */
  datatype PostReply = PostOk | PostFailed

  /** The − and + buttons of a row. */
  datatype Control = Minus | Plus

  /** The rows with a non-null quantity, in order, as the records dispatched for them. */
  function Counted(rows: seq<Row>): (r: seq<Item>)
    ensures |r| <= |rows|
  {
    if |rows| == 0 then []
    else
      var rest := Counted(rows[..|rows| - 1]);
      var last := rows[|rows| - 1];
      match last.quantity
      case None => rest
      case Some(q) => rest + [Item(last.id, q, last.price, last.info)]
  }

  /** The records fed one after another through `addToCartOnCart`. */
  function AddedAll(s: seq<Item>, ps: seq<Item>): seq<Item> {
    if |ps| == 0 then s else Added(AddedAll(s, ps[..|ps| - 1]), ps[|ps| - 1])
  }

  /** The quantity a row shows: the first matching `itemsCart` record's, or 0. */
  function DisplayedQuantity(cart: seq<Item>, id: int): (q: int)
    ensures !HasId(cart, id) ==> q == 0
    ensures HasId(cart, id) ==> exists k :: 0 <= k < |cart| && cart[k].id == id && q == cart[k].quantity
    ensures UniqueIds(cart) ==> forall k :: 0 <= k < |cart| && cart[k].id == id ==> q == cart[k].quantity
  {
    FindNone(cart, id);
    match Find(cart, id)
    case None => 0
    case Some(k) => cart[k].quantity
  }

  /** The quantity a button requests: one less or one more than the displayed quantity. */
  function Requested(c: Control, shown: int): (q: int)
    ensures c == Minus ==> q == shown - 1
    ensures c == Plus ==> q == shown + 1
  {
    match c
    case Minus => shown - 1
    case Plus => shown + 1
  }

  /** The optimistic part of `handleUpdateQuantity`: remove the record first when the new
      quantity is not positive, then `updateQuantityOnCart`. */
  function Optimistic(cart: seq<Item>, items: seq<Item>, id: int, newQ: int): seq<Item> {
    var afterRemove := if newQ <= 0 then Without(cart, id) else cart;
    QuantitySetOnCart(afterRemove, items, id, newQ)
  }

  /** `itemsCart` after a click as written: a failed post reaches `Alert.alert`, which is not
      imported, so the rollback on the next line never runs and the optimistic value stays. */
  function AfterClickAsWritten(cart: seq<Item>, items: seq<Item>, id: int, newQ: int, reply: PostReply): seq<Item> {
    Optimistic(cart, items, id, newQ)
  }

  /** `itemsCart` after a click as intended: a failed post rolls back to the shown quantity. */
  function AfterClickIntended(cart: seq<Item>, items: seq<Item>, id: int, newQ: int, shown: int, reply: PostReply): seq<Item> {
    var optimistic := Optimistic(cart, items, id, newQ);
    match reply
    case PostOk => optimistic
    case PostFailed => QuantitySetOnCart(optimistic, items, id, shown)
  }

  // ---------------------------------------------------------------------------------------
  // Reload

  /** The dispatched records are the rows with a non-null quantity, in order. */
  lemma {:induction false} CountedConcat(a: seq<Row>, b: seq<Row>)
    ensures Counted(a + b) == Counted(a) + Counted(b)
  {
    if |b| == 0 {
      assert a + b == a;
    } else {
      assert (a + b)[..|a + b| - 1] == a + b[..|b| - 1];
      assert (a + b)[|a + b| - 1] == b[|b| - 1];
      CountedConcat(a, b[..|b| - 1]);
    }
  }

  /** A null-quantity row is skipped; any other row is dispatched with its own quantity. */
  lemma CountedSingle(r: Row)
    ensures r.quantity.None? ==> Counted([r]) == []
    ensures r.quantity.Some? ==> Counted([r]) == [Item(r.id, r.quantity.value, r.price, r.info)]
  {
    assert [r][..0] == [];
  }

  /** Adding one record changes the displayed quantity of its id by the record's quantity,
      whether it merges into an existing record or is appended, and leaves other ids alone. */
  lemma DisplayedAfterAdded(s: seq<Item>, p: Item, id: int)
    ensures DisplayedQuantity(Added(s, p), id) ==
            DisplayedQuantity(s, id) + (if p.id == id then p.quantity else 0)
  {
    var r := Added(s, p);
    match Find(s, p.id)
    case None =>
      FindNone(s, p.id);
      FindNone(s, id);
      assert r == s + [p];
      if HasId(s, id) {
        var k := Find(s, id).value;
        assert Find(r, id) == Some(k) by {
          FindIsFirst(s, id);
          assert r[k] == s[k];
          forall j | 0 <= j < k ensures r[j].id != id { assert r[j] == s[j]; }
          FindFirst(r, id, k);
        }
      } else if p.id == id {
        assert Find(r, id) == Some(|s|) by {
          forall j | 0 <= j < |s| ensures r[j].id != id { assert r[j] == s[j]; }
          FindFirst(r, id, |s|);
        }
      } else {
        assert !HasId(r, id) by {
          forall j | 0 <= j < |r| ensures r[j].id != id { if j < |s| { assert r[j] == s[j]; } }
        }
        FindNone(r, id);
      }
    case Some(k) =>
      FindIgnoresQuantity(s, k, s[k].quantity + p.quantity, id);
  }

  /** Feeding a list of records adds, per id, the sum of their quantities to the displayed
      quantity: the reducer sums rather than replaces. */
  lemma {:induction false} DisplayedAfterAddedAll(s: seq<Item>, ps: seq<Item>, id: int)
    ensures DisplayedQuantity(AddedAll(s, ps), id) == DisplayedQuantity(s, id) + QuantityFor(ps, id)
  {
    if |ps| > 0 {
      DisplayedAfterAddedAll(s, ps[..|ps| - 1], id);
      DisplayedAfterAdded(AddedAll(s, ps[..|ps| - 1]), ps[|ps| - 1], id);
    }
  }

  /** Fetching the same rows twice into an empty `itemsCart` shows twice the server quantity. */
  lemma RefetchDoubles(rows: seq<Row>, id: int)
    ensures var once := AddedAll([], Counted(rows));
            DisplayedQuantity(AddedAll(once, Counted(rows)), id) == 2 * QuantityFor(Counted(rows), id)
  {
    var once := AddedAll([], Counted(rows));
    DisplayedAfterAddedAll([], Counted(rows), id);
    DisplayedAfterAddedAll(once, Counted(rows), id);
  }

  /** Feeding records keeps `itemsCart` ids unique. */
  lemma {:induction false} AddedAllKeepsUnique(s: seq<Item>, ps: seq<Item>)
    requires UniqueIds(s)
    ensures UniqueIds(AddedAll(s, ps))
  {
    if |ps| > 0 {
      AddedAllKeepsUnique(s, ps[..|ps| - 1]);
      AddedKeepsUnique(AddedAll(s, ps[..|ps| - 1]), ps[|ps| - 1]);
    }
  }

  // ---------------------------------------------------------------------------------------
  // Quantity controls

  /** When the new quantity is not positive, the removal runs first, so the update that
      follows finds nothing: the result is `itemsCart` minus the id, never `items` minus it. */
  lemma RemovalFirstMakesUpdateNoOp(cart: seq<Item>, items: seq<Item>, id: int, newQ: int)
    requires newQ <= 0
    ensures Optimistic(cart, items, id, newQ) == Without(cart, id)
  {
  }

  /** Once removed, a record cannot be reinstated by the rollback, whatever the reply. */
  lemma RollbackCannotReinstate(cart: seq<Item>, items: seq<Item>, id: int, newQ: int, shown: int, reply: PostReply)
    requires newQ <= 0
    ensures !HasId(AfterClickIntended(cart, items, id, newQ, shown, reply), id)
    ensures !HasId(AfterClickAsWritten(cart, items, id, newQ, reply), id)
  {
  }

  /** With a record at a positive quantity, − shows one less (0 means removed) and + one more. */
  lemma ControlsStepByOne(cart: seq<Item>, items: seq<Item>, id: int, c: Control)
    requires HasId(cart, id) && DisplayedQuantity(cart, id) > 0
    ensures var shown := DisplayedQuantity(cart, id);
            DisplayedQuantity(Optimistic(cart, items, id, Requested(c, shown)), id) ==
              (if c == Plus then shown + 1 else shown - 1)
  {
    FindNone(cart, id);
    var k := Find(cart, id).value;
    var q := Requested(c, cart[k].quantity);
    if q > 0 {
      FindIgnoresQuantity(cart, k, q, id);
    }
  }

  /** A row whose id is not in `itemsCart` shows 0, and neither button changes `itemsCart`. */
  lemma ControlsOnAbsentRow(cart: seq<Item>, items: seq<Item>, id: int, c: Control)
    requires !HasId(cart, id)
    ensures Optimistic(cart, items, id, Requested(c, DisplayedQuantity(cart, id))) == cart
  {
    WithoutAbsent(cart, id);
  }

  /** As written, a failed post leaves the optimistic quantity in place: the + click on a
      record shown at 2 still shows 3 after the server refused it. */
  lemma FailedPostKeepsOptimisticValue()
    ensures var cart := [Item(7, 2, 100, "bread")];
            var after := AfterClickAsWritten(cart, [], 7, 3, PostFailed);
            DisplayedQuantity(after, 7) == 3 && after != cart
  {
    var cart := [Item(7, 2, 100, "bread")];
    assert Find(cart, 7) == Some(0);
    var after := Optimistic(cart, [], 7, 3);
    assert after == [Item(7, 3, 100, "bread")];
    assert Find(after, 7) == Some(0);
  }

  /** As intended, a failed post on a record shown at its quantity restores `itemsCart`. */
  lemma FailedPostRollsBack(cart: seq<Item>, items: seq<Item>, id: int, newQ: int)
    requires HasId(cart, id) && newQ > 0 && DisplayedQuantity(cart, id) > 0
    ensures AfterClickIntended(cart, items, id, newQ, DisplayedQuantity(cart, id), PostFailed) == cart
  {
    FindNone(cart, id);
    var k := Find(cart, id).value;
    var optimistic := cart[k := cart[k].(quantity := newQ)];
    FindIgnoresQuantity(cart, k, newQ, id);
    assert optimistic[k := optimistic[k].(quantity := cart[k].quantity)] == cart;
  }

  // ---------------------------------------------------------------------------------------
  // The handlers, over the slice state

  /** `fetchListData`: on success the page shows the rows and every row with a non-null
      quantity goes, in order, through `addToCartOnCart`; on failure the rows shown stay. */
  method FetchListData(cart: Cart, reply: ListReply, shownRows: seq<Row>) returns (rows: seq<Row>)
    modifies cart
    ensures reply.ListOk? ==> rows == reply.rows
    ensures reply.ListOk? ==> cart.itemsCart == AddedAll(old(cart.itemsCart), Counted(reply.rows))
    ensures reply.ListFailed? ==> rows == shownRows && cart.itemsCart == old(cart.itemsCart)
    ensures cart.items == old(cart.items) && cart.shopId == old(cart.shopId) && cart.userId == old(cart.userId)
  {
    match reply
    case ListFailed =>
      rows := shownRows;
    case ListOk(data) =>
      rows := data;
      var ps := Counted(data);
      ghost var start := cart.itemsCart;
      for i := 0 to |ps|
        invariant cart.itemsCart == AddedAll(start, ps[..i])
        invariant cart.items == old(cart.items) && cart.shopId == old(cart.shopId) && cart.userId == old(cart.userId)
      {
        assert ps[..i + 1][..i] == ps[..i];
        cart.AddToCartOnCart(ps[i]);
      }
      assert ps[..|ps|] == ps;
  }

  /** `handleUpdateQuantity` as written. `crashed` says the failure path threw before the
      rollback. */
  method HandleUpdateQuantity(cart: Cart, id: int, newQ: int, reply: PostReply) returns (crashed: bool)
    modifies cart
    ensures cart.itemsCart == AfterClickAsWritten(old(cart.itemsCart), old(cart.items), id, newQ, reply)
    ensures crashed <==> reply == PostFailed
    ensures cart.items == old(cart.items) && cart.shopId == old(cart.shopId) && cart.userId == old(cart.userId)
  {
    if newQ <= 0 {
      cart.RemoveFromCartOnCart(id);
    }
    cart.UpdateQuantityOnCart(id, newQ);
    crashed := reply == PostFailed;
  }

  /** `handleUpdateQuantity` with the rollback reachable; `shown` is the quantity the row
      displayed when it was clicked. */
  method HandleUpdateQuantityIntended(cart: Cart, id: int, newQ: int, shown: int, reply: PostReply)
    modifies cart
    ensures cart.itemsCart == AfterClickIntended(old(cart.itemsCart), old(cart.items), id, newQ, shown, reply)
    ensures cart.items == old(cart.items) && cart.shopId == old(cart.shopId) && cart.userId == old(cart.userId)
  {
    if newQ <= 0 {
      cart.RemoveFromCartOnCart(id);
    }
    cart.UpdateQuantityOnCart(id, newQ);
    if reply == PostFailed {
      cart.UpdateQuantityOnCart(id, shown);
    }
  }

  /** A click on − or +: the requested quantity is derived from the displayed one. */
  method PressControl(cart: Cart, id: int, c: Control, reply: PostReply) returns (crashed: bool)
    modifies cart
    ensures cart.itemsCart ==
      AfterClickAsWritten(old(cart.itemsCart), old(cart.items), id, Requested(c, DisplayedQuantity(old(cart.itemsCart), id)), reply)
    ensures cart.items == old(cart.items) && cart.shopId == old(cart.shopId) && cart.userId == old(cart.userId)
  {
    var shown := DisplayedQuantity(cart.itemsCart, id);
    crashed := HandleUpdateQuantity(cart, id, Requested(c, shown), reply);
  }
}
