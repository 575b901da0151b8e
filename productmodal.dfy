/**
 * The product detail modal's quantity stepper: a counter that starts at 1,
 * never drops below 1 and goes back to 1 after the product is added.
 */
module ProductModal {

  import opened Types
  import CartProvider

  /** The quantity after one press of a step button: applied only when the result is at least 1. */
  function Stepped(quantity: int, change: int): int
  {
    if quantity + change >= 1 then quantity + change else quantity
  }

  /** The quantity after a run of presses, the first press first. */
  function SteppedAll(quantity: int, changes: seq<int>): int
    decreases |changes|
  {
    if changes == [] then quantity else SteppedAll(Stepped(quantity, changes[0]), changes[1..])
  }

  /** No run of presses takes a quantity of at least 1 below 1. */
  lemma {:induction false} SteppedAllKeepsPositive(quantity: int, changes: seq<int>)
    requires quantity >= 1
    ensures SteppedAll(quantity, changes) >= 1
    decreases |changes|
  {
    if changes != [] {
      SteppedAllKeepsPositive(Stepped(quantity, changes[0]), changes[1..]);
    }
  }

  /** Pressing plus `n` times from any positive quantity adds exactly `n`. */
  lemma {:induction false} PlusPressesAdd(quantity: int, n: nat)
    requires quantity >= 1
    ensures SteppedAll(quantity, seq(n, _ => 1)) == quantity + n
    decreases n
  {
    if n > 0 {
      var presses := seq(n, _ => 1);
      assert presses[1..] == seq(n - 1, _ => 1);
      PlusPressesAdd(quantity + 1, n - 1);
    }
  }

  /** Pressing minus `n` times from `quantity` stops at 1 and never below. */
  lemma {:induction false} MinusPressesStopAtOne(quantity: int, n: nat)
    requires quantity >= 1
    ensures SteppedAll(quantity, seq(n, _ => -1)) == if quantity - n >= 1 then quantity - n else 1
    decreases n
  {
    if n > 0 {
      var presses := seq(n, _ => -1);
      assert presses[1..] == seq(n - 1, _ => -1);
      MinusPressesStopAtOne(Stepped(quantity, -1), n - 1);
    }
  }

  /** The minus button is disabled exactly when pressing it would have no effect. */
  lemma MinusDisabledIffNoEffect(quantity: int)
    requires quantity >= 1
    ensures quantity <= 1 <==> Stepped(quantity, -1) == quantity
  {
  }

  class ProductModal {
    const product: Product
    var quantity: int

    ghost predicate Valid()
      reads this
    {
      quantity >= 1
    }

    constructor (product: Product)
      ensures Valid()
      ensures this.product == product && quantity == 1
    {
      this.product := product;
      quantity := 1;
    }

    /** `handleQuantityChange`. */
    method HandleQuantityChange(change: int)
      requires Valid()
      modifies this
      ensures Valid()
      ensures quantity == Stepped(old(quantity), change)
      ensures change == -1 ==> (old(MinusDisabled()) <==> quantity == old(quantity))
    {
      MinusDisabledIffNoEffect(quantity);
      var newQuantity := quantity + change;
      if newQuantity >= 1 {
        quantity := newQuantity;
      }
    }

    /** `handleAddToCart`: hands over the product with the chosen quantity, then resets to 1. */
    method HandleAddToCart() returns (added: Product, count: int)
      requires Valid()
      modifies this
      ensures Valid()
      ensures added == product && count == old(quantity) && count >= 1
      ensures quantity == 1
    {
      added, count := product, quantity;
      quantity := 1;
    }

    /** `totalPrice`: what the chosen quantity costs, the same as a cart line of it. */
    function TotalPrice(): (r: int)
      reads this
      ensures r == CartProvider.LineTotal(CartItem(product, quantity))
      ensures Valid() && product.price >= 0 ==> r >= product.price
    {
      product.price * quantity
    }

    /** `disabled={quantity <= 1}` on the minus button. */
    predicate MinusDisabled()
      reads this
    {
      quantity <= 1
    }
  }

}
