/**
 * The cart reducer: a total, deterministic state machine over the cart
 * lines, the open flag and the derived total.
 */
module CartProvider {

  import opened Types
  import opened JsArray
  import Products

  datatype CartState = CartState(items: seq<CartItem>, isOpen: bool, total: int)

  datatype CartAction =
    | AddItem(product: Product)
    | RemoveItem(productId: string)
    | UpdateQuantity(id: string, quantity: int)
    | ClearCart
    | ToggleCart
    | CloseCart

  /** `initialState`. */
  const InitialState := CartState([], false, 0)

  function LineTotal(item: CartItem): int
  {
    item.product.price * item.quantity
  }

  function Quantity(item: CartItem): int
  {
    item.quantity
  }

  /** `calculateTotal`: the sum of price times quantity over the lines. */
  function CalculateTotal(items: seq<CartItem>): int
  {
    SumBy(items, LineTotal)
  }

  /** `getItemsCount`: the sum of the quantities. */
  function GetItemsCount(items: seq<CartItem>): int
  {
    SumBy(items, Quantity)
  }

  function HasId(id: string): CartItem -> bool
  {
    (item: CartItem) => item.product.id == id
  }

  function LacksId(id: string): CartItem -> bool
  {
    (item: CartItem) => item.product.id != id
  }

  function WithQuantityFor(id: string, quantity: int): CartItem -> CartItem
  {
    (item: CartItem) => if item.product.id == id then item.(quantity := quantity) else item
  }

  function HasPositiveQuantity(item: CartItem): bool
  {
    item.quantity > 0
  }

  /** `cartReducer`. */
  function Reduce(state: CartState, action: CartAction): CartState
  {
    match action
    case AddItem(product) =>
      var i := FindIndex(state.items, HasId(product.id));
      var newItems :=
        if i > -1 then state.items[i := state.items[i].(quantity := state.items[i].quantity + 1)]
        else state.items + [CartItem(product, 1)];
      state.(items := newItems, total := CalculateTotal(newItems))
    case RemoveItem(id) =>
      var newItems := Filter(state.items, LacksId(id));
      state.(items := newItems, total := CalculateTotal(newItems))
    case UpdateQuantity(id, quantity) =>
      var newItems := Filter(Map(state.items, WithQuantityFor(id, quantity)), HasPositiveQuantity);
      state.(items := newItems, total := CalculateTotal(newItems))
    case ClearCart =>
      state.(items := [], total := 0)
    case ToggleCart =>
      state.(isOpen := !state.isOpen)
    case CloseCart =>
      state.(isOpen := false)
  }

  /** Dispatching a sequence of actions, in order. */
  function Run(state: CartState, actions: seq<CartAction>): CartState
    decreases |actions|
  {
    if actions == [] then state else Run(Reduce(state, actions[0]), actions[1..])
  }

  // ---------------------------------------------------------------------
  // Invariants

  predicate UniqueIds(items: seq<CartItem>)
  {
    forall i, j :: 0 <= i < j < |items| ==> items[i].product.id != items[j].product.id
  }

  predicate AllPositive(items: seq<CartItem>)
  {
    forall k :: 0 <= k < |items| ==> items[k].quantity >= 1
  }

  predicate Contains(items: seq<CartItem>, id: string)
  {
    exists k :: 0 <= k < |items| && items[k].product.id == id
  }

  /** What every reachable cart satisfies. */
  predicate CartInv(state: CartState)
  {
    && UniqueIds(state.items)
    && AllPositive(state.items)
    && state.total == CalculateTotal(state.items)
  }

  // ---------------------------------------------------------------------
  // Helpers about single-line edits

  lemma RemoveAtKeepsUnique(items: seq<CartItem>, i: int)
    requires UniqueIds(items) && 0 <= i < |items|
    ensures UniqueIds(items[..i] + items[i + 1..])
    ensures forall k :: 0 <= k < |items| && k != i ==> items[k] in items[..i] + items[i + 1..]
  {
    var r := items[..i] + items[i + 1..];
    assert forall k :: 0 <= k < |r| ==> r[k] == items[if k < i then k else k + 1];
    forall k | 0 <= k < |items| && k != i
      ensures items[k] in r
    {
      assert items[k] == r[if k < i then k else k - 1];
    }
  }

  lemma RemoveAtKeepsPositive(items: seq<CartItem>, i: int)
    requires AllPositive(items) && 0 <= i < |items|
    ensures AllPositive(items[..i] + items[i + 1..])
  {
    var r := items[..i] + items[i + 1..];
    assert forall k :: 0 <= k < |r| ==> r[k] == items[if k < i then k else k + 1];
  }

  /** In a cart with unique ids, the line holding `id` is the one `findIndex` returns. */
  lemma FindIndexOfUnique(items: seq<CartItem>, id: string, i: int)
    requires UniqueIds(items) && 0 <= i < |items| && items[i].product.id == id
    ensures FindIndex(items, HasId(id)) == i
  {
    var r := FindIndex(items, HasId(id));
    assert r != -1 by { assert HasId(id)(items[i]); }
    assert HasId(id)(items[r]);
  }

  lemma FilterLacksIdPresent(items: seq<CartItem>, id: string, i: int)
    requires UniqueIds(items) && 0 <= i < |items| && items[i].product.id == id
    ensures Filter(items, LacksId(id)) == items[..i] + items[i + 1..]
  {
    FilterDropsOne(items, LacksId(id), i);
  }

  lemma FilterLacksIdAbsent(items: seq<CartItem>, id: string)
    requires !Contains(items, id)
    ensures Filter(items, LacksId(id)) == items
  {
    FilterAllPass(items, LacksId(id));
  }

  /** Setting a quantity to zero or less and dropping non-positive lines removes that product. */
  lemma {:induction false} UpdateToNonPositiveIsRemove(items: seq<CartItem>, id: string, quantity: int)
    requires AllPositive(items) && quantity <= 0
    ensures Filter(Map(items, WithQuantityFor(id, quantity)), HasPositiveQuantity) ==
            Filter(items, LacksId(id))
  {
    if items != [] {
      var m := Map(items, WithQuantityFor(id, quantity));
      assert m[1..] == Map(items[1..], WithQuantityFor(id, quantity));
      UpdateToNonPositiveIsRemove(items[1..], id, quantity);
    }
  }

  // ---------------------------------------------------------------------
  // Properties of the reducer

  /** Adding a product already in the cart bumps only that line, keeping its stored product. */
  lemma AddExistingIncrementsLine(state: CartState, product: Product, i: int)
    requires UniqueIds(state.items) && 0 <= i < |state.items|
    requires state.items[i].product.id == product.id
    ensures var r := Reduce(state, AddItem(product));
      && |r.items| == |state.items|
      && r.items[i] == CartItem(state.items[i].product, state.items[i].quantity + 1)
      && (forall k :: 0 <= k < |state.items| && k != i ==> r.items[k] == state.items[k])
      && r.isOpen == state.isOpen
      && r.total == CalculateTotal(state.items) + state.items[i].product.price
      && GetItemsCount(r.items) == GetItemsCount(state.items) + 1
  {
    FindIndexOfUnique(state.items, product.id, i);
    var x := state.items[i].(quantity := state.items[i].quantity + 1);
    SumByUpdate(state.items, i, x, LineTotal);
    SumByUpdate(state.items, i, x, Quantity);
  }

  /** Adding a product not in the cart appends a line of quantity 1. */
  lemma AddNewAppendsLine(state: CartState, product: Product)
    requires !Contains(state.items, product.id)
    ensures var r := Reduce(state, AddItem(product));
      && r.items == state.items + [CartItem(product, 1)]
      && r.isOpen == state.isOpen
      && r.total == CalculateTotal(state.items) + product.price
      && GetItemsCount(r.items) == GetItemsCount(state.items) + 1
  {
    var line := CartItem(product, 1);
    SumByAppend(state.items, [line], LineTotal);
    SumByAppend(state.items, [line], Quantity);
    assert [line][1..] == [];
  }

  /** Removing a product in the cart drops exactly its line and keeps the rest in order. */
  lemma RemovePresentDropsLine(state: CartState, id: string, i: int)
    requires UniqueIds(state.items) && 0 <= i < |state.items| && state.items[i].product.id == id
    ensures var r := Reduce(state, RemoveItem(id));
      && r.items == state.items[..i] + state.items[i + 1..]
      && r.isOpen == state.isOpen
      && r.total == CalculateTotal(state.items) - LineTotal(state.items[i])
  {
    FilterLacksIdPresent(state.items, id, i);
    SumByRemove(state.items, i, LineTotal);
  }

  /** Removing a product that is not in the cart changes nothing. */
  lemma RemoveAbsentIsNoOp(state: CartState, id: string)
    requires state.total == CalculateTotal(state.items)
    requires !Contains(state.items, id)
    ensures Reduce(state, RemoveItem(id)) == state
  {
    FilterLacksIdAbsent(state.items, id);
  }

  /** A positive quantity replaces that line's quantity and touches nothing else. */
  lemma UpdatePositiveReplacesQuantity(state: CartState, id: string, quantity: int, i: int)
    requires UniqueIds(state.items) && AllPositive(state.items)
    requires 0 <= i < |state.items| && state.items[i].product.id == id && quantity > 0
    ensures var r := Reduce(state, UpdateQuantity(id, quantity));
      && |r.items| == |state.items|
      && r.items[i] == CartItem(state.items[i].product, quantity)
      && (forall k :: 0 <= k < |state.items| && k != i ==> r.items[k] == state.items[k])
      && r.isOpen == state.isOpen
      && r.total == CalculateTotal(state.items) - LineTotal(state.items[i]) +
                    state.items[i].product.price * quantity
  {
    var x := state.items[i].(quantity := quantity);
    var m := Map(state.items, WithQuantityFor(id, quantity));
    assert m == state.items[i := x];
    FilterAllPass(m, HasPositiveQuantity);
    SumByUpdate(state.items, i, x, LineTotal);
  }

  /** A quantity of zero or less is the same as removing the product. */
  lemma UpdateNonPositiveRemoves(state: CartState, id: string, quantity: int)
    requires AllPositive(state.items) && quantity <= 0
    ensures Reduce(state, UpdateQuantity(id, quantity)) == Reduce(state, RemoveItem(id))
  {
    UpdateToNonPositiveIsRemove(state.items, id, quantity);
  }

  /** Updating a product that is not in the cart changes nothing. */
  lemma UpdateAbsentIsNoOp(state: CartState, id: string, quantity: int)
    requires AllPositive(state.items) && state.total == CalculateTotal(state.items)
    requires !Contains(state.items, id)
    ensures Reduce(state, UpdateQuantity(id, quantity)) == state
  {
    var m := Map(state.items, WithQuantityFor(id, quantity));
    assert m == state.items;
    FilterAllPass(m, HasPositiveQuantity);
  }

  /** Clearing empties the lines and the total and keeps the open flag. */
  lemma ClearCartEmpties(state: CartState)
    ensures var r := Reduce(state, ClearCart);
      r.items == [] && r.total == 0 && r.isOpen == state.isOpen && CartInv(r)
  {
  }

  /** Toggling flips the flag, closing lowers it; neither touches lines or total. */
  lemma ToggleAndCloseOnlyMoveTheFlag(state: CartState)
    ensures var t := Reduce(state, ToggleCart);
      t.items == state.items && t.total == state.total && t.isOpen == !state.isOpen
    ensures Reduce(Reduce(state, ToggleCart), ToggleCart) == state
    ensures var c := Reduce(state, CloseCart);
      c.items == state.items && c.total == state.total && !c.isOpen
    ensures Reduce(Reduce(state, CloseCart), CloseCart) == Reduce(state, CloseCart)
  {
  }

  lemma AddItemPreservesCartInv(state: CartState, product: Product)
    requires CartInv(state)
    ensures CartInv(Reduce(state, AddItem(product)))
  {
    var items := state.items;
    var r := Reduce(state, AddItem(product));
    if Contains(items, product.id) {
      var i :| 0 <= i < |items| && items[i].product.id == product.id;
      AddExistingIncrementsLine(state, product, i);
      assert forall k :: 0 <= k < |items| ==> r.items[k].product == items[k].product;
    } else {
      AddNewAppendsLine(state, product);
    }
  }

  /** ADD_ITEM raises the item count (the header badge) by exactly one. */
  lemma AddItemRaisesCount(state: CartState, product: Product)
    requires UniqueIds(state.items)
    ensures GetItemsCount(Reduce(state, AddItem(product)).items) == GetItemsCount(state.items) + 1
  {
    if Contains(state.items, product.id) {
      var i :| 0 <= i < |state.items| && state.items[i].product.id == product.id;
      AddExistingIncrementsLine(state, product, i);
    } else {
      AddNewAppendsLine(state, product);
    }
  }

  lemma RemoveItemPreservesCartInv(state: CartState, id: string)
    requires CartInv(state)
    ensures CartInv(Reduce(state, RemoveItem(id)))
  {
    var items := state.items;
    if Contains(items, id) {
      var i :| 0 <= i < |items| && items[i].product.id == id;
      RemovePresentDropsLine(state, id, i);
      RemoveAtKeepsUnique(items, i);
      RemoveAtKeepsPositive(items, i);
    } else {
      RemoveAbsentIsNoOp(state, id);
    }
  }

  /** Replacing a line by one for the same product with a positive quantity keeps both invariants. */
  lemma ReplaceLineKeepsInv(items: seq<CartItem>, i: int, x: CartItem)
    requires UniqueIds(items) && AllPositive(items)
    requires 0 <= i < |items| && x.product == items[i].product && x.quantity >= 1
    ensures UniqueIds(items[i := x]) && AllPositive(items[i := x])
  {
    var r := items[i := x];
    assert forall k :: 0 <= k < |r| ==> r[k].product == items[k].product;
  }

  lemma UpdateQuantityPreservesCartInv(state: CartState, id: string, quantity: int)
    requires CartInv(state)
    ensures CartInv(Reduce(state, UpdateQuantity(id, quantity)))
  {
    var items := state.items;
    var r := Reduce(state, UpdateQuantity(id, quantity));
    if !Contains(items, id) {
      UpdateAbsentIsNoOp(state, id, quantity);
    } else if quantity > 0 {
      var i :| 0 <= i < |items| && items[i].product.id == id;
      UpdatePositiveReplacesQuantity(state, id, quantity, i);
      var x := CartItem(items[i].product, quantity);
      assert r.items == items[i := x];
      ReplaceLineKeepsInv(items, i, x);
    } else {
      UpdateNonPositiveRemoves(state, id, quantity);
      RemoveItemPreservesCartInv(state, id);
    }
  }

  /** Every action keeps ids unique, quantities at least 1 and the total exact. */
  lemma ReducePreservesCartInv(state: CartState, action: CartAction)
    requires CartInv(state)
    ensures CartInv(Reduce(state, action))
  {
    match action
    case AddItem(product) => AddItemPreservesCartInv(state, product);
    case RemoveItem(id) => RemoveItemPreservesCartInv(state, id);
    case UpdateQuantity(id, quantity) => UpdateQuantityPreservesCartInv(state, id, quantity);
    case ClearCart =>
    case ToggleCart =>
    case CloseCart =>
  }

  /** The initial cart is empty, and every cart reachable from it keeps the invariant. */
  lemma {:induction false} ReachableCartsKeepInv(state: CartState, actions: seq<CartAction>)
    requires CartInv(state)
    ensures CartInv(Run(state, actions))
    decreases |actions|
  {
    if actions != [] {
      ReducePreservesCartInv(state, actions[0]);
      ReachableCartsKeepInv(Reduce(state, actions[0]), actions[1..]);
    }
  }

  lemma RunOne(s: CartState, a: CartAction)
    ensures Run(s, [a]) == Reduce(s, a)
  {
    assert [a][1..] == [];
  }

  lemma RunTwo(s: CartState, a: CartAction, b: CartAction)
    ensures Run(s, [a, b]) == Reduce(Reduce(s, a), b)
  {
    assert [a, b][1..] == [b];
    RunOne(Reduce(s, a), b);
  }

  lemma RunThree(s: CartState, a: CartAction, b: CartAction, c: CartAction)
    ensures Run(s, [a, b, c]) == Reduce(Reduce(Reduce(s, a), b), c)
  {
    assert [a, b, c][1..] == [b, c];
    RunTwo(Reduce(s, a), b, c);
  }

  lemma RunFour(s: CartState, a: CartAction, b: CartAction, c: CartAction, d: CartAction)
    ensures Run(s, [a, b, c, d]) == Reduce(Reduce(Reduce(Reduce(s, a), b), c), d)
  {
    assert [a, b, c, d][1..] == [b, c, d];
    RunThree(Reduce(s, a), b, c, d);
  }

  lemma InitialStateIsEmpty()
    ensures InitialState.items == [] && InitialState.total == 0 && !InitialState.isOpen
    ensures CartInv(InitialState)
    ensures forall actions :: CartInv(Run(InitialState, actions))
  {
    forall actions: seq<CartAction> ensures CartInv(Run(InitialState, actions)) {
      ReachableCartsKeepInv(InitialState, actions);
    }
  }

  /** The item count is at least the number of lines. */
  lemma {:induction false} ItemsCountAtLeastLines(items: seq<CartItem>)
    requires AllPositive(items)
    ensures GetItemsCount(items) >= |items|
  {
    if items != [] {
      ItemsCountAtLeastLines(items[1..]);
    }
  }

  /** With positive prices, a consistent cart has a positive total iff it has a line. */
  lemma {:induction false} TotalPositiveIffNonEmpty(items: seq<CartItem>)
    requires AllPositive(items)
    requires forall k :: 0 <= k < |items| ==> items[k].product.price > 0
    ensures CalculateTotal(items) > 0 <==> items != []
    ensures CalculateTotal(items) >= 0
  {
    if items != [] {
      TotalPositiveIffNonEmpty(items[1..]);
      var x := items[0];
      assert LineTotal(x) > 0 by {
        assert x.product.price >= 1 && x.quantity >= 1;
        assert x.product.price * x.quantity >= x.product.price;
      }
    }
  }

  /** Three adds of one product and one of another: four items on two lines. */
  lemma ItemsCountExceedsLines(p: Product, q: Product)
    requires p.id != q.id
    ensures var r := Run(InitialState, [AddItem(p), AddItem(p), AddItem(p), AddItem(q)]);
      GetItemsCount(r.items) == 4 && |r.items| == 2
  {
    var s0 := InitialState;
    var s1 := Reduce(s0, AddItem(p));
    AddNewAppendsLine(s0, p);
    assert s1.items == [CartItem(p, 1)];
    var s2 := Reduce(s1, AddItem(p));
    AddExistingIncrementsLine(s1, p, 0);
    var s3 := Reduce(s2, AddItem(p));
    AddExistingIncrementsLine(s2, p, 0);
    var s4 := Reduce(s3, AddItem(q));
    AddNewAppendsLine(s3, q);
    RunFour(s0, AddItem(p), AddItem(p), AddItem(p), AddItem(q));
    assert GetItemsCount(s0.items) == 0;
  }

  /** Adding one product twice and another once gives two lines, the first of quantity 2. */
  lemma AddTwiceThenOther(p: Product, q: Product)
    requires p.id != q.id
    ensures var r := Run(InitialState, [AddItem(p), AddItem(p), AddItem(q)]);
      r.items == [CartItem(p, 2), CartItem(q, 1)] && r.total == 2 * p.price + q.price
  {
    var s0 := InitialState;
    var s1 := Reduce(s0, AddItem(p));
    AddNewAppendsLine(s0, p);
    assert s1.items == [CartItem(p, 1)];
    var s2 := Reduce(s1, AddItem(p));
    AddExistingIncrementsLine(s1, p, 0);
    assert s2.items == [CartItem(p, 2)];
    AddNewAppendsLine(s2, q);
    RunThree(s0, AddItem(p), AddItem(p), AddItem(q));
    assert CalculateTotal(s1.items) == p.price by {
      assert s1.items[1..] == [];
    }
  }

  /** With the menu's first two burgers (R$ 24,90 and R$ 28,90) that order totals R$ 78,70. */
  lemma MenuOrderExample()
    ensures var p, q := Products.products[0], Products.products[1];
      var r := Run(InitialState, [AddItem(p), AddItem(p), AddItem(q)]);
      && p.id == "1" && q.id == "2"
      && r.items == [CartItem(p, 2), CartItem(q, 1)] && r.total == 7870
  {
    AddTwiceThenOther(Products.products[0], Products.products[1]);
  }

  /** Adding a product and then setting its quantity to 0 leaves an empty cart. */
  lemma AddThenZeroQuantityEmpties(p: Product)
    ensures Run(InitialState, [AddItem(p), UpdateQuantity(p.id, 0)]) == InitialState
  {
    var s1 := Reduce(InitialState, AddItem(p));
    AddNewAppendsLine(InitialState, p);
    RemovePresentDropsLine(s1, p.id, 0);
    UpdateNonPositiveRemoves(s1, p.id, 0);
    RunTwo(InitialState, AddItem(p), UpdateQuantity(p.id, 0));
  }

}
